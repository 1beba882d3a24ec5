/** The authenticated API client of the web front end: one `Client` record per
    application mode, a request pipeline that attaches the bearer token and
    classifies the response, and the refresh sub-protocol a 401 triggers.

    The transport is a finite script of outcomes; each fetch consumes the next
    one, and a fetch issued when the script is exhausted never answers (`Hung`).
    The refresh callback is not called here: every call to it is recorded as a
    `Notified` event in the run's trace, for the session model to apply. */
module ApiClient {
  import opened Optional
  import opened Strings
  import opened Json

  const DefaultBaseUrl: string := "http://localhost:8000"
  const DefaultProjectId: int := 1
  const EnterpriseProjectId: int := 1
  const PersonalProjectId: int := 2

  const RefreshPath: string := "/api/v1/auth/refresh"
  const LoginPath: string := "/api/v1/auth/login"
  const RegisterPath: string := "/api/v1/auth/register"

  const AuthorizationHeader: string := "Authorization"
  const ContentTypeHeader: string := "Content-Type"
  const JsonMediaType: string := "application/json"

  const SessionExpired: string := "Session expirée"
  const UnknownError: string := "Erreur inconnue"
  const NetworkError: string := "Network error"
  const NoRefreshToken: string := "No refresh token"
  /** The TypeError message for `null.access_token`, in V8's wording; other
      JavaScript engines word it differently. */
  const NullAccessMessage: string := "Cannot read properties of null (reading 'access_token')"

  /** A token the client would use: present and non-empty (JavaScript truthiness). */
  predicate Held(t: Option<string>) {
    t.Some? && t.value != ""
  }

  /** One `ApiClient` instance. `listening` says whether a refresh callback
      has been registered with `setOnTokenRefresh`. */
  datatype Client = Client(
    baseUrl: string,
    projectId: int,
    authToken: Option<string>,
    refreshToken: Option<string>,
    listening: bool)

  /** The constructor: one trailing slash is dropped from the base URL; no
      token and no callback are held yet. */
  function NewClient(baseUrl: string, projectId: int): (c: Client)
    ensures c.baseUrl + (if EndsWith(baseUrl, "/") then "/" else "") == baseUrl
    ensures c.projectId == projectId
    ensures c.authToken == None && c.refreshToken == None && !c.listening
  {
    Client(DropTrailingSlash(baseUrl), projectId, None, None, false)
  }

  function SetProjectId(c: Client, projectId: int): (r: Client)
    ensures r.projectId == projectId && r.(projectId := c.projectId) == c
  {
    c.(projectId := projectId)
  }

  function SetAuthToken(c: Client, token: Option<string>): (r: Client)
    ensures r.authToken == token && r.(authToken := c.authToken) == c
  {
    c.(authToken := token)
  }

  function SetRefreshToken(c: Client, token: Option<string>): (r: Client)
    ensures r.refreshToken == token && r.(refreshToken := c.refreshToken) == c
  {
    c.(refreshToken := token)
  }

  function SetOnTokenRefresh(c: Client): (r: Client)
    ensures r.listening && r.(listening := c.listening) == c
  {
    c.(listening := true)
  }

  /** The `init` argument of `request`: verb (HTTP method), caller headers and the JSON
      payload that is stringified into the body (if any). */
  datatype Init = Init(verb: string, headers: map<string, string>, body: Option<JsonValue>)

  /** `request(path)` with no `init`. */
  const NoInit: Init := Init("GET", map[], None)

  function JsonPost(payload: JsonValue): Init {
    Init("POST", map[ContentTypeHeader := JsonMediaType], Some(payload))
  }

  function RefreshInit(refreshToken: string): Init {
    JsonPost(JObj(map["refresh_token" := JStr(refreshToken)]))
  }

  /** What is handed to the transport. */
  datatype Fetch = Fetch(url: string, verb: string, headers: map<string, string>, body: Option<JsonValue>)

  /** The caller's headers, with `Authorization: Bearer <t>` set exactly when a
      non-empty access token is held. */
  function WithBearer(headers: map<string, string>, token: Option<string>): (r: map<string, string>)
    ensures AuthorizationHeader in r && r[AuthorizationHeader] == "Bearer " + token.value <== Held(token)
    ensures r.Keys == headers.Keys + (if Held(token) then {AuthorizationHeader} else {})
    ensures forall k :: k in headers && (k != AuthorizationHeader || !Held(token)) ==> r[k] == headers[k]
  {
    if Held(token) then headers[AuthorizationHeader := "Bearer " + token.value] else headers
  }

  function FetchFor(c: Client, path: string, init: Init): Fetch {
    Fetch(c.baseUrl + path, init.verb, WithBearer(init.headers, c.authToken), init.body)
  }

  /** The result of parsing a body as JSON (`res.json()`), an oracle of the script. */
  datatype Parse = Parsed(value: JsonValue) | Unparsable(message: string)

  /** One scripted transport outcome: the fetch rejects, or a response arrives
      with its status, `content-type` header, raw text and JSON reading. */
  datatype Outcome =
    | NetworkFailure(message: string)
    | Response(status: int, contentType: Option<string>, text: string, json: Parse)

  /** A response body as `request` hands it on: raw text or parsed JSON. */
  datatype Body = TextBody(text: string) | JsonBody(value: JsonValue)

  /** `ApiResult`: `{ok: true, data}` or `{ok: false, error, status?}`. */
  datatype ApiResult = Ok(data: Body) | Err(error: JsonValue, status: Option<int>)

  /** How a call ends: it returns, it throws, or it waits forever on a fetch
      that never answers. */
  datatype Completion = Returned(result: ApiResult) | Threw(message: string) | Hung

  /** What a run does that is visible outside the client: fetches, its own
      assignments to `authToken`, and calls of the refresh callback. */
  datatype Event =
    | Fetched(fetch: Fetch)
    | TokenSet(token: Option<string>)
    | Notified(token: Option<string>)

  datatype Run = Run(completion: Completion, client: Client, rest: seq<Outcome>, trace: seq<Event>)

  predicate IsOk(status: int) {
    200 <= status <= 299
  }

  predicate DeclaresJson(contentType: Option<string>) {
    contentType.Some? && Includes(contentType.value, JsonMediaType)
  }

  /** A response read into a status and body, or the message of what was thrown. */
  datatype Read = Received(status: int, body: Body) | Raised(message: string)

  function Receive(o: Outcome): Read {
    match o
    case NetworkFailure(m) => Raised(m)
    case Response(status, contentType, text, json) =>
      if DeclaresJson(contentType) then
        match json
        case Parsed(v) => Received(status, JsonBody(v))
        case Unparsable(m) => Raised(m)
      else Received(status, TextBody(text))
  }

  /** `e?.message || "Network error"`. */
  function ThrownText(message: string): (r: string)
    ensures r != ""
    ensures message != "" ==> r == message
  {
    if message == "" then NetworkError else message
  }

  /** The error of a non-2xx response: the body if it is a string, else its
      `signal`, else its `message`, else "Erreur inconnue". */
  function ErrorMessage(body: Body): (m: JsonValue)
    ensures body.TextBody? ==> m == JStr(body.text)
    ensures body.JsonBody? && body.value.JStr? ==> m == body.value
    ensures body.JsonBody? && !body.value.JStr? ==>
      if JsTruthyOpt(Member(body.value, "signal")) then m == body.value.fields["signal"]
      else if JsTruthyOpt(Member(body.value, "message")) then m == body.value.fields["message"]
      else m == JStr(UnknownError)
    ensures !JsTruthy(m) ==> m == JStr("") && (body == TextBody("") || body == JsonBody(JStr("")))
  {
    match body
    case TextBody(s) => JStr(s)
    case JsonBody(v) =>
      if v.JStr? then v
      else
        var signal := Member(v, "signal");
        var message := Member(v, "message");
        if JsTruthyOpt(signal) then signal.value
        else if JsTruthyOpt(message) then message.value
        else JStr(UnknownError)
  }

  /** The answer to one fetch when no refresh is attempted. */
  function Settle(o: Outcome): (r: ApiResult)
    ensures r.Ok? <==> o.Response? && IsOk(o.status) && (DeclaresJson(o.contentType) ==> o.json.Parsed?)
    ensures r.Ok? ==> r.data == (if DeclaresJson(o.contentType) then JsonBody(o.json.value) else TextBody(o.text))
    ensures r.Err? && r.status.Some? <==> o.Response? && !IsOk(o.status) && (DeclaresJson(o.contentType) ==> o.json.Parsed?)
    ensures r.Err? && r.status.Some? ==> r.status.value == o.status
    ensures r.Err? && r.status.None? ==> r.error.JStr? && r.error.s != ""
  {
    match Receive(o)
    case Raised(m) => Err(JStr(ThrownText(m)), None)
    case Received(status, body) =>
      if !IsOk(status) then Err(ErrorMessage(body), Some(status)) else Ok(body)
  }

  /** The refresh callback's call, if one is registered. */
  function Notice(c: Client, token: Option<string>): seq<Event> {
    if c.listening then [Notified(token)] else []
  }

  /** The access token the client last assigned itself in `trace`, or `initial`. */
  function LastSet(trace: seq<Event>, initial: Option<string>): Option<string> {
    if trace == [] then initial
    else if trace[|trace| - 1].TokenSet? then trace[|trace| - 1].token
    else LastSet(trace[..|trace| - 1], initial)
  }

  lemma LastSetAppend(a: seq<Event>, b: seq<Event>, initial: Option<string>)
    ensures LastSet(a + b, initial) == LastSet(b, LastSet(a, initial))
  {
    if b == [] {
      assert a + b == a;
    } else {
      assert (a + b)[|a + b| - 1] == b[|b| - 1];
      assert (a + b)[..|a + b| - 1] == a + b[..|b| - 1];
      LastSetAppend(a, b[..|b| - 1], initial);
    }
  }

  predicate NoNotices(trace: seq<Event>) {
    forall e <- trace :: !e.Notified?
  }

  predicate FetchesOnly(trace: seq<Event>, urls: set<string>) {
    forall e <- trace :: e.Fetched? ==> e.fetch.url in urls
  }

  /** The run consumed a prefix of the script and left the rest. */
  predicate Consumes(script: seq<Outcome>, run: Run) {
    |run.rest| <= |script| && run.rest == script[|script| - |run.rest|..]
  }

  /** A run changes only the client's access token, and leaves it at the last
      value the client assigned itself. */
  predicate Keeps(c: Client, run: Run) {
    && run.client == c.(authToken := run.client.authToken)
    && run.client.authToken == LastSet(run.trace, c.authToken)
  }

  /** The callback is called only when registered, and a client that has one
      changes nothing without calling it. */
  predicate Announces(c: Client, run: Run) {
    && (!c.listening ==> NoNotices(run.trace))
    && (c.listening && NoNotices(run.trace) ==> run.client == c)
  }

  /** One step of a call chain followed by another that starts from the
      client and script the first left behind: together they keep what each
      keeps alone, whatever the chain finally completes with. */
  lemma Chain(c: Client, script: seq<Outcome>, a: Run, b: Run, urls: set<string>, done: Completion)
    requires Consumes(script, a) && Keeps(c, a) && Announces(c, a) && FetchesOnly(a.trace, urls)
    requires Consumes(a.rest, b) && Keeps(a.client, b) && Announces(a.client, b) && FetchesOnly(b.trace, urls)
    ensures var run := Run(done, b.client, b.rest, a.trace + b.trace);
      Consumes(script, run) && Keeps(c, run) && Announces(c, run) && FetchesOnly(run.trace, urls)
  {
    LastSetAppend(a.trace, b.trace, c.authToken);
  }

  /** `request(path, init, retryCount)`. Nothing escapes it: every failure is an
      `Err`. A 401 with a refresh token held on a first attempt runs the refresh
      sub-protocol; on success the call is retried once with `retryCount + 1`,
      on failure the callback gets "" and the result is "Session expirée". */
  function Request(c: Client, path: string, init: Init, retryCount: nat, script: seq<Outcome>): (run: Run)
    ensures !run.completion.Threw?
    ensures Consumes(script, run)
    ensures Keeps(c, run)
    ensures Announces(c, run)
    ensures FetchesOnly(run.trace, {c.baseUrl + path, c.baseUrl + RefreshPath})
    ensures |run.trace| > 0 && run.trace[0] == Fetched(FetchFor(c, path, init))
    ensures retryCount > 0 || !Held(c.refreshToken) ==>
      && run.trace == [Fetched(FetchFor(c, path, init))]
      && (script == [] ==> run == Run(Hung, c, [], run.trace))
      && (script != [] ==> run == Run(Returned(Settle(script[0])), c, script[1..], run.trace))
    decreases |script|, 0
  {
    var f := Fetched(FetchFor(c, path, init));
    if script == [] then Run(Hung, c, script, [f])
    else
      var rest := script[1..];
      var read := Receive(script[0]);
      if read.Received? && read.status == 401 && Held(c.refreshToken) && retryCount == 0 then
        var urls := {c.baseUrl + path, c.baseUrl + RefreshPath};
        var first := Run(Hung, c, rest, [f]);
        assert LastSet([f], c.authToken) == c.authToken;
        var r := RefreshAccessToken(c, rest);
        var trace := [f] + r.trace;
        match r.completion
        case Hung =>
          Chain(c, script, first, r, urls, Hung);
          Run(Hung, r.client, r.rest, trace)
        case Threw(m) =>
          var done := Returned(Err(JStr(ThrownText(m)), None));
          Chain(c, script, first, r, urls, done);
          Run(done, r.client, r.rest, trace)
        case Returned(result) =>
          Chain(c, script, first, r, urls, Hung);
          var refreshed := Run(Hung, r.client, r.rest, trace);
          if result.Ok? then
            var again := Request(r.client, path, init, retryCount + 1, r.rest);
            Chain(c, script, refreshed, again, urls, again.completion);
            Run(again.completion, again.client, again.rest, trace + again.trace)
          else
            var failed := Notice(r.client, Some(""));
            var done := Returned(Err(JStr(SessionExpired), Some(401)));
            assert LastSet(failed, r.client.authToken) == r.client.authToken;
            Chain(c, script, refreshed, Run(done, r.client, r.rest, failed), urls, done);
            Run(done, r.client, r.rest, trace + failed)
      else Run(Returned(Settle(script[0])), c, rest, [f])
  }

  /** What `result.data.access_token` reads from a response body: `undefined`
      unless the body is a JSON object, and a TypeError on JSON `null`. */
  datatype FieldRead = Found(value: Option<JsonValue>) | NullBase

  function ReadField(data: Body, key: string): FieldRead {
    match data
    case TextBody(_) => Found(None)
    case JsonBody(v) => if v.JNull? then NullBase else Found(Member(v, key))
  }

  /** A JSON field used as a token; only a string is kept. */
  function AsToken(v: Option<JsonValue>): Option<string> {
    if v.Some? && v.value.JStr? then Some(v.value.s) else None
  }

  /** The token installed by a successful refresh whose response body is `data`. */
  function IssuedToken(data: Body): Option<string> {
    match ReadField(data, "access_token")
    case Found(v) => AsToken(v)
    case NullBase => None
  }

  /** The trace ends with the client installing `token` and announcing it. */
  predicate EndsWithInstall(trace: seq<Event>, token: Option<string>, listening: bool) {
    var tail := [TokenSet(token)] + (if listening then [Notified(token)] else []);
    |tail| <= |trace| && trace[|trace| - |tail|..] == tail
  }

  lemma InstallLast(trace: seq<Event>, token: Option<string>, listening: bool)
    ensures EndsWithInstall(trace + ([TokenSet(token)] + (if listening then [Notified(token)] else [])), token, listening)
  {
    var tail := [TokenSet(token)] + (if listening then [Notified(token)] else []);
    assert (trace + tail)[|trace|..] == tail;
  }

  /** After the refresh call `r` succeeded, the client assigns itself `token`
      and then hands it to the callback, if one is registered. */
  function Install(c: Client, script: seq<Outcome>, r: Run, token: Option<string>): (run: Run)
    requires Consumes(script, r) && Keeps(c, r) && Announces(c, r)
    requires FetchesOnly(r.trace, {c.baseUrl + RefreshPath})
    ensures Consumes(script, run) && Keeps(c, run) && Announces(c, run)
    ensures FetchesOnly(run.trace, {c.baseUrl + RefreshPath})
    ensures run.completion == r.completion && run.client.authToken == token
    ensures EndsWithInstall(run.trace, token, c.listening)
  {
    var client := r.client.(authToken := token);
    var installed := [TokenSet(token)] + Notice(client, token);
    assert LastSet(installed, r.client.authToken) == token;
    Chain(c, script, r, Run(r.completion, client, r.rest, installed), {c.baseUrl + RefreshPath}, r.completion);
    InstallLast(r.trace, token, c.listening);
    Run(r.completion, client, r.rest, r.trace + installed)
  }

  /** `refreshAccessToken()`: without a refresh token it fails locally and
      fetches nothing; otherwise it posts the refresh token through `request`
      with the default `retryCount` 0, and on success installs the returned
      access token and then hands it to the callback. */
  function RefreshAccessToken(c: Client, script: seq<Outcome>): (run: Run)
    ensures Consumes(script, run)
    ensures Keeps(c, run)
    ensures Announces(c, run)
    ensures FetchesOnly(run.trace, {c.baseUrl + RefreshPath})
    ensures !Held(c.refreshToken) ==> run == Run(Returned(Err(JStr(NoRefreshToken), None)), c, script, [])
    ensures run.completion.Returned? && run.completion.result.Ok? ==>
      && run.client.authToken == IssuedToken(run.completion.result.data)
      && EndsWithInstall(run.trace, run.client.authToken, c.listening)
    ensures run.completion.Threw? ==> run.completion.message == NullAccessMessage
    decreases |script|, 1
  {
    if !Held(c.refreshToken) then Run(Returned(Err(JStr(NoRefreshToken), None)), c, script, [])
    else
      var r := Request(c, RefreshPath, RefreshInit(c.refreshToken.value), 0, script);
      if r.completion.Returned? && r.completion.result.Ok? then
        match ReadField(r.completion.result.data, "access_token")
        case NullBase => Run(Threw(NullAccessMessage), r.client, r.rest, r.trace)
        case Found(v) => Install(c, script, r, AsToken(v))
      else r
  }

  /** `login({email, password})`. */
  function LoginCall(c: Client, email: string, password: string, script: seq<Outcome>): Run {
    Request(c, LoginPath, JsonPost(JObj(map["email" := JStr(email), "password" := JStr(password)])), 0, script)
  }

  /** `register({first_name, last_name, email, password})`. */
  function RegisterCall(c: Client, firstName: string, lastName: string, email: string, password: string,
                        script: seq<Outcome>): Run
  {
    var payload := map["first_name" := JStr(firstName), "last_name" := JStr(lastName),
                       "email" := JStr(email), "password" := JStr(password)];
    Request(c, RegisterPath, JsonPost(JObj(payload)), 0, script)
  }
}
