/** The session provider of the web front end: the authentication state
    `{user, accessToken, refreshToken}`, the three persisted storage keys, and
    the two API clients (enterprise, project 1; personal, project 2) that the
    provider keeps supplied with its tokens.

    Each effect of the provider is modelled as a synchronous step right after
    the state change that triggers it: `Push` copies the tokens into both
    clients, and the refresh callback registered with both clients is
    `HandleTokenRefresh`, applied to the callback calls a client run recorded. */
module Session {
  import opened Optional
  import opened Json
  import opened ApiClient

  const AccessKey: string := "auth_access_token"
  const RefreshKey: string := "auth_refresh_token"
  const UserKey: string := "auth_user"

  /** `{user_id, email}`; a field is absent when the response lacked it. */
  datatype AuthUser = AuthUser(userId: Option<JsonValue>, email: Option<JsonValue>)

  datatype AuthState = AuthState(user: Option<AuthUser>, accessToken: Option<string>, refreshToken: Option<string>)

  const SignedOut: AuthState := AuthState(None, None, None)

  /** The browser's persistent key-value store. */
  type Storage = map<string, string>

  /** What `JSON.parse` makes of a stored user: a user, `null`, or a throw. */
  datatype Decoded = DecodedUser(user: AuthUser) | DecodedNull | Malformed

  /** `JSON.stringify` and `JSON.parse` for the stored user. */
  datatype UserCodec = UserCodec(encode: AuthUser -> string, decode: string -> Decoded)

  /** Stringifying a user gives a non-empty text that parses back to it. */
  ghost predicate Faithful(codec: UserCodec) {
    forall u :: codec.encode(u) != "" && codec.decode(codec.encode(u)) == DecodedUser(u)
  }

  datatype Provider = Provider(state: AuthState, storage: Storage, enterprise: Client, personal: Client)

  datatype Mode = Enterprise | Personal

  function ClientOf(p: Provider, mode: Mode): Client {
    match mode
    case Enterprise => p.enterprise
    case Personal => p.personal
  }

  function WithClient(p: Provider, mode: Mode, c: Client): Provider {
    match mode
    case Enterprise => p.(enterprise := c)
    case Personal => p.(personal := c)
  }

  /** Both clients hold exactly the provider's tokens. */
  predicate InSync(p: Provider) {
    && p.enterprise.authToken == p.state.accessToken
    && p.enterprise.refreshToken == p.state.refreshToken
    && p.personal.authToken == p.state.accessToken
    && p.personal.refreshToken == p.state.refreshToken
  }

  /** Both clients have the provider's refresh callback. */
  predicate Registered(p: Provider) {
    p.enterprise.listening && p.personal.listening
  }

  /** `q`'s clients are `p`'s up to their tokens. */
  predicate SameClients(p: Provider, q: Provider) {
    && q.enterprise == p.enterprise.(authToken := q.enterprise.authToken, refreshToken := q.enterprise.refreshToken)
    && q.personal == p.personal.(authToken := q.personal.authToken, refreshToken := q.personal.refreshToken)
  }

  /** `localStorage.getItem(key) || undefined`. */
  function StoredToken(storage: Storage, key: string): (t: Option<string>)
    ensures t.Some? <==> key in storage && storage[key] != ""
    ensures t.Some? ==> t.value == storage[key]
  {
    if key in storage && storage[key] != "" then Some(storage[key]) else None
  }

  /** `localStorage.setItem(key, v)` stores `String(v)`: "undefined" for no token. */
  function StoredText(t: Option<string>): string {
    match t
    case Some(s) => s
    case None => "undefined"
  }

  /** The load effect: empty or missing tokens become `undefined`, a missing or
      empty user entry becomes `null`, and a user entry `JSON.parse` rejects
      throws (there is no guard), which `None` stands for. */
  function Load(storage: Storage, codec: UserCodec): (s: Option<AuthState>)
    ensures s.None? <==> UserKey in storage && storage[UserKey] != "" && codec.decode(storage[UserKey]).Malformed?
    ensures s.Some? ==> s.value.accessToken == StoredToken(storage, AccessKey)
    ensures s.Some? ==> s.value.refreshToken == StoredToken(storage, RefreshKey)
    ensures s.Some? ==> (s.value.user.None? <==>
      UserKey !in storage || storage[UserKey] == "" || codec.decode(storage[UserKey]).DecodedNull?)
    ensures s.Some? && s.value.user.Some? ==> codec.decode(storage[UserKey]) == DecodedUser(s.value.user.value)
  {
    var a := StoredToken(storage, AccessKey);
    var r := StoredToken(storage, RefreshKey);
    if UserKey in storage && storage[UserKey] != "" then
      match codec.decode(storage[UserKey])
      case DecodedUser(u) => Some(AuthState(Some(u), a, r))
      case DecodedNull => Some(AuthState(None, a, r))
      case Malformed => None
    else Some(AuthState(None, a, r))
  }

  /** The effect on `[accessToken, refreshToken]`: both clients get both tokens. */
  function Push(p: Provider): (q: Provider)
    ensures InSync(q)
    ensures q.state == p.state && q.storage == p.storage
    ensures SameClients(p, q)
  {
    var t := p.state;
    p.(enterprise := SetRefreshToken(SetAuthToken(p.enterprise, t.accessToken), t.refreshToken),
       personal := SetRefreshToken(SetAuthToken(p.personal, t.accessToken), t.refreshToken))
  }

  /** Mounting the provider: the load effect, the token push and the
      registration of `HandleTokenRefresh` with both clients. A stored user
      entry that `JSON.parse` rejects aborts the mount. */
  function Mount(storage: Storage, codec: UserCodec, enterprise: Client, personal: Client): (m: Option<Provider>)
    ensures m.Some? <==> Load(storage, codec).Some?
    ensures m.Some? ==> m.value.state == Load(storage, codec).value && m.value.storage == storage
    ensures m.Some? ==> InSync(m.value) && Registered(m.value)
    ensures m.Some? ==> m.value.enterprise.baseUrl == enterprise.baseUrl && m.value.personal.baseUrl == personal.baseUrl
    ensures m.Some? ==>
      m.value.enterprise.projectId == enterprise.projectId && m.value.personal.projectId == personal.projectId
  {
    match Load(storage, codec)
    case None => None
    case Some(s) => Some(Push(Provider(s, storage, SetOnTokenRefresh(enterprise), SetOnTokenRefresh(personal))))
  }

  /** `logout()`: no user, no tokens, none of the three keys stored; no network. */
  function Logout(p: Provider): (q: Provider)
    ensures q.state == SignedOut
    ensures q.storage == p.storage - {AccessKey, RefreshKey, UserKey}
    ensures InSync(q) && SameClients(p, q)
  {
    Push(p.(state := SignedOut, storage := p.storage - {AccessKey, RefreshKey, UserKey}))
  }

  /** `handleTokenRefresh(newToken)`: a non-empty token replaces and persists
      the access token only; anything else logs out. */
  function HandleTokenRefresh(p: Provider, token: Option<string>): (q: Provider)
    ensures Held(token) ==> q.state == p.state.(accessToken := token)
    ensures Held(token) ==> q.storage == p.storage[AccessKey := token.value]
    ensures !Held(token) ==> q == Logout(p)
    ensures InSync(q) && SameClients(p, q)
  {
    if Held(token) then
      Push(p.(state := p.state.(accessToken := token), storage := p.storage[AccessKey := token.value]))
    else Logout(p)
  }

  /** Applies, in order, every call of the refresh callback in `trace`. */
  function Deliver(p: Provider, trace: seq<Event>): (q: Provider)
    ensures NoNotices(trace) ==> q == p
    ensures !NoNotices(trace) ==> InSync(q)
    ensures SameClients(p, q)
  {
    if trace == [] then p
    else
      var q := Deliver(p, trace[..|trace| - 1]);
      var e := trace[|trace| - 1];
      assert forall x <- trace[..|trace| - 1] :: x in trace;
      assert NoNotices(trace) <==> NoNotices(trace[..|trace| - 1]) && !e.Notified? by {
        assert trace == trace[..|trace| - 1] + [e];
      }
      if e.Notified? then HandleTokenRefresh(q, e.token) else q
  }

  /** The provider side of one call through a client. */
  datatype Answer = Answer(completion: Completion, provider: Provider)

  /** A call through one of the two clients, with the callback calls it made
      applied to the provider afterwards. */
  function Call(p: Provider, mode: Mode, path: string, init: Init, script: seq<Outcome>): (a: Answer)
    ensures a.completion == Request(ClientOf(p, mode), path, init, 0, script).completion
    ensures InSync(p) && Registered(p) ==> InSync(a.provider) && Registered(a.provider)
    ensures SameClients(p, a.provider)
  {
    var c := ClientOf(p, mode);
    var run := Request(c, path, init, 0, script);
    assert run.client.listening == c.listening;
    Answer(run.completion, Deliver(WithClient(p, mode, run.client), run.trace))
  }

  /** How `login` or `register` ends: its promise resolves to a boolean,
      rejects, or never settles. */
  datatype SignInOutcome =
    | Finished(success: bool, provider: Provider)
    | Rejected(message: string, provider: Provider)
    | Pending(provider: Provider)

  /** The successful branch shared by `login` and `register`: set and persist
      both tokens and the user. */
  function SignIn(p: Provider, codec: UserCodec, access: Option<string>, refresh: Option<string>, user: AuthUser): (q: Provider)
    ensures q.state == AuthState(Some(user), access, refresh)
    ensures q.storage == p.storage[AccessKey := StoredText(access)][RefreshKey := StoredText(refresh)][UserKey := codec.encode(user)]
    ensures InSync(q) && SameClients(p, q)
  {
    Push(p.(state := AuthState(Some(user), access, refresh),
            storage := p.storage[AccessKey := StoredText(access)][RefreshKey := StoredText(refresh)]
                                [UserKey := codec.encode(user)]))
  }

  /** `storage` holds what a sign-in writes: both tokens as `String` of
      themselves and the stringified user. */
  predicate StoresSignIn(storage: Storage, codec: UserCodec, access: Option<string>, refresh: Option<string>, user: AuthUser) {
    && AccessKey in storage && storage[AccessKey] == StoredText(access)
    && RefreshKey in storage && storage[RefreshKey] == StoredText(refresh)
    && UserKey in storage && storage[UserKey] == codec.encode(user)
  }

  /** The tokens and user a successful response body yields, or `None` when
      the body is JSON `null` and reading a field throws. */
  function Credentials(data: Body): Option<(Option<string>, Option<string>)> {
    match (ReadField(data, "access_token"), ReadField(data, "refresh_token"))
    case (Found(a), Found(r)) => Some((AsToken(a), AsToken(r)))
    case _ => None
  }

  /** What a field of the response body reads as (`undefined` included). */
  function FieldOf(data: Body, key: string): Option<JsonValue> {
    match ReadField(data, key)
    case Found(v) => v
    case NullBase => None
  }

  /** The shared tail of `login` and `register` once the client call is over. */
  function Conclude(p: Provider, codec: UserCodec, run: Run, user: Body -> AuthUser): SignInOutcome {
    var q := Deliver(p.(enterprise := run.client), run.trace);
    match run.completion
    case Returned(Err(_, _)) => Finished(false, q)
    case Returned(Ok(data)) =>
      (match Credentials(data)
       case Some((a, r)) => Finished(true, SignIn(q, codec, a, r, user(data)))
       case None => Rejected(NullAccessMessage, q))
    case _ => Pending(q)
  }

  /** `login(email, password)` through the enterprise client. On success the
      user is `{user_id: 0, email}`. */
  function Login(p: Provider, codec: UserCodec, email: string, password: string, script: seq<Outcome>): (o: SignInOutcome)
    ensures var run := LoginCall(p.enterprise, email, password, script);
      && (run.completion.Returned? && run.completion.result.Err? <==> o.Finished? && !o.success)
      && (o.Finished? && !o.success && !Held(p.enterprise.refreshToken) ==> o.provider == p)
      && (o.Finished? && o.success ==>
            && run.completion.Returned? && run.completion.result.Ok?
            && Credentials(run.completion.result.data).Some?
            && var (a, r) := Credentials(run.completion.result.data).value;
               var user := AuthUser(Some(JNum(0.0)), Some(JStr(email)));
               && o.provider.state == AuthState(Some(user), a, r)
               && StoresSignIn(o.provider.storage, codec, a, r, user))
    ensures InSync(p) && Registered(p) ==> InSync(o.provider) && Registered(o.provider)
    ensures o.Finished? && o.success ==> InSync(o.provider)
  {
    var run := LoginCall(p.enterprise, email, password, script);
    assert run.client.listening == p.enterprise.listening;
    Conclude(p, codec, run, (data: Body) => AuthUser(Some(JNum(0.0)), Some(JStr(email))))
  }

  /** `register(first_name, last_name, email, password)` through the enterprise
      client. On success the user's `user_id` and `email` come from the response. */
  function Register(p: Provider, codec: UserCodec, firstName: string, lastName: string, email: string,
                    password: string, script: seq<Outcome>): (o: SignInOutcome)
    ensures var run := RegisterCall(p.enterprise, firstName, lastName, email, password, script);
      && (run.completion.Returned? && run.completion.result.Err? <==> o.Finished? && !o.success)
      && (o.Finished? && !o.success && !Held(p.enterprise.refreshToken) ==> o.provider == p)
      && (o.Finished? && o.success ==>
            && run.completion.Returned? && run.completion.result.Ok?
            && Credentials(run.completion.result.data).Some?
            && var data := run.completion.result.data;
               var (a, r) := Credentials(data).value;
               var user := AuthUser(FieldOf(data, "user_id"), FieldOf(data, "email"));
               && o.provider.state == AuthState(Some(user), a, r)
               && StoresSignIn(o.provider.storage, codec, a, r, user))
    ensures InSync(p) && Registered(p) ==> InSync(o.provider) && Registered(o.provider)
    ensures o.Finished? && o.success ==> InSync(o.provider)
  {
    var run := RegisterCall(p.enterprise, firstName, lastName, email, password, script);
    assert run.client.listening == p.enterprise.listening;
    Conclude(p, codec, run, (data: Body) => AuthUser(FieldOf(data, "user_id"), FieldOf(data, "email")))
  }

  /** `ProtectedRoute`: the page is shown only with a truthy access token;
      otherwise it redirects to the authentication page. */
  predicate Shows(state: AuthState) {
    Held(state.accessToken)
  }
}
