/** Properties of the session provider that relate several steps: what a
    reload restores, what logging out twice does, and how the provider ends
    after a client call that refreshed or failed to refresh. */
module SessionProperties {
  import opened Optional
  import opened Json
  import opened ApiClient
  import opened ApiClientProperties
  import opened Session

  /** What is stored is what a reload would restore. */
  predicate Persisted(p: Provider, codec: UserCodec) {
    Load(p.storage, codec) == Some(p.state)
  }

  /** Right after mounting, the state is what storage holds. */
  lemma MountPersists(storage: Storage, codec: UserCodec, enterprise: Client, personal: Client)
    requires Mount(storage, codec, enterprise, personal).Some?
    ensures Persisted(Mount(storage, codec, enterprise, personal).value, codec)
  {
  }

  /** Logging out twice is logging out once. */
  lemma LogoutIdempotent(p: Provider)
    ensures Logout(Logout(p)) == Logout(p)
  {
  }

  /** After logging out, a reload finds nobody signed in, whatever the codec. */
  lemma ReloadAfterLogout(p: Provider, codec: UserCodec)
    ensures Load(Logout(p).storage, codec) == Some(SignedOut)
  {
  }

  /** The refresh callback keeps storage and state in step. */
  lemma HandleTokenRefreshPersists(p: Provider, codec: UserCodec, token: Option<string>)
    requires Persisted(p, codec)
    ensures Persisted(HandleTokenRefresh(p, token), codec)
  {
    if Held(token) {
      var q := HandleTokenRefresh(p, token);
      assert StoredToken(q.storage, AccessKey) == token;
      assert StoredToken(q.storage, RefreshKey) == StoredToken(p.storage, RefreshKey);
    }
  }

  /** Delivering any sequence of callback calls keeps storage and state in step. */
  lemma {:induction false} DeliverPersists(p: Provider, codec: UserCodec, trace: seq<Event>)
    requires Persisted(p, codec)
    ensures Persisted(Deliver(p, trace), codec)
  {
    if trace != [] {
      DeliverPersists(p, codec, trace[..|trace| - 1]);
      var e := trace[|trace| - 1];
      if e.Notified? {
        HandleTokenRefreshPersists(Deliver(p, trace[..|trace| - 1]), codec, e.token);
      }
    }
  }

  /** A call through either client, whatever the transport did, keeps storage
      and state in step. */
  lemma CallPersists(p: Provider, codec: UserCodec, mode: Mode, path: string, init: Init, script: seq<Outcome>)
    requires Persisted(p, codec)
    ensures Persisted(Call(p, mode, path, init, script).provider, codec)
  {
    var run := Request(ClientOf(p, mode), path, init, 0, script);
    DeliverPersists(WithClient(p, mode, run.client), codec, run.trace);
  }

  /** Signing in with two non-empty tokens and a faithful codec: a reload
      restores the same user and tokens. */
  lemma ReloadAfterSignIn(p: Provider, codec: UserCodec, access: Option<string>, refresh: Option<string>, user: AuthUser)
    requires Faithful(codec) && Held(access) && Held(refresh)
    ensures Persisted(SignIn(p, codec, access, refresh, user), codec)
  {
    var q := SignIn(p, codec, access, refresh, user);
    assert q.storage[AccessKey] == access.value && q.storage[RefreshKey] == refresh.value;
    assert codec.decode(q.storage[UserKey]) == DecodedUser(user);
    assert StoredToken(q.storage, AccessKey) == access;
    assert StoredToken(q.storage, RefreshKey) == refresh;
  }

  /** A response without `access_token` stores the text "undefined", which a
      reload reads back as a (truthy) access token. */
  lemma ReloadReadsUndefined(p: Provider, codec: UserCodec, refresh: Option<string>, user: AuthUser)
    requires Faithful(codec)
    ensures var q := SignIn(p, codec, None, refresh, user);
      && q.state.accessToken == None && !Shows(q.state)
      && Load(q.storage, codec).Some?
      && Load(q.storage, codec).value.accessToken == Some("undefined")
      && Shows(Load(q.storage, codec).value)
  {
    var q := SignIn(p, codec, None, refresh, user);
    assert codec.decode(q.storage[UserKey]) == DecodedUser(user);
    assert q.storage[AccessKey] == "undefined";
  }

  /** A successful login returning two non-empty tokens, from a provider whose
      storage was in step, leaves it in step and shows the protected pages. */
  lemma LoginPersists(p: Provider, codec: UserCodec, email: string, password: string, script: seq<Outcome>)
    requires Faithful(codec) && Persisted(p, codec)
    ensures var o := Login(p, codec, email, password, script);
      o.Finished? && o.success && Held(o.provider.state.accessToken) && Held(o.provider.state.refreshToken) ==>
        Persisted(o.provider, codec) && Shows(o.provider.state)
    ensures var o := Login(p, codec, email, password, script);
      o.Finished? && !o.success ==> Persisted(o.provider, codec)
  {
    var run := LoginCall(p.enterprise, email, password, script);
    DeliverPersists(p.(enterprise := run.client), codec, run.trace);
    var o := Login(p, codec, email, password, script);
    if o.Finished? && o.success && Held(o.provider.state.accessToken) && Held(o.provider.state.refreshToken) {
      var q := Deliver(p.(enterprise := run.client), run.trace);
      var (a, r) := Credentials(run.completion.result.data).value;
      ReloadAfterSignIn(q, codec, a, r, AuthUser(Some(JNum(0.0)), Some(JStr(email))));
    }
  }

  /** A successful registration returning two non-empty tokens, from a
      provider whose storage was in step, leaves it in step and shows the
      protected pages; a failed one leaves storage in step. */
  lemma RegisterPersists(p: Provider, codec: UserCodec, firstName: string, lastName: string, email: string,
                         password: string, script: seq<Outcome>)
    requires Faithful(codec) && Persisted(p, codec)
    ensures var o := Register(p, codec, firstName, lastName, email, password, script);
      o.Finished? && o.success && Held(o.provider.state.accessToken) && Held(o.provider.state.refreshToken) ==>
        Persisted(o.provider, codec) && Shows(o.provider.state)
    ensures var o := Register(p, codec, firstName, lastName, email, password, script);
      o.Finished? && !o.success ==> Persisted(o.provider, codec)
  {
    var run := RegisterCall(p.enterprise, firstName, lastName, email, password, script);
    DeliverPersists(p.(enterprise := run.client), codec, run.trace);
    var o := Register(p, codec, firstName, lastName, email, password, script);
    if o.Finished? && o.success && Held(o.provider.state.accessToken) && Held(o.provider.state.refreshToken) {
      var q := Deliver(p.(enterprise := run.client), run.trace);
      var data := run.completion.result.data;
      var (a, r) := Credentials(data).value;
      ReloadAfterSignIn(q, codec, a, r, AuthUser(FieldOf(data, "user_id"), FieldOf(data, "email")));
    }
  }

  /** An expired access token and a refresh endpoint that refuses (after any
      number of nested 401s): the caller sees "Session expirée" with status 401
      and the provider ends signed out, with nothing left in storage, so the
      protected pages redirect. */
  lemma SessionEndsAfterRefusedRefresh(p: Provider, mode: Mode, path: string, init: Init, k: nat, failure: Outcome)
    requires InSync(p) && Registered(p) && Held(p.state.refreshToken)
    requires Settle(failure).Err? && Settle(failure).status != Some(401)
    ensures var a := Call(p, mode, path, init, Refusals(k + 1, failure));
      && a.completion == Returned(Err(JStr(SessionExpired), Some(401)))
      && a.provider.state == SignedOut
      && AccessKey !in a.provider.storage && RefreshKey !in a.provider.storage && UserKey !in a.provider.storage
      && !Shows(a.provider.state)
  {
    var c := ClientOf(p, mode);
    SessionExpiresAfterRefusals(c, path, init, k, failure);
    var run := Request(c, path, init, 0, Refusals(k + 1, failure));
    var notice := Notified(Some(""));
    var head := [Fetched(FetchFor(c, path, init))];
    var before := head + (Repeat(RefreshFetch(c), k + 1) + Repeat(notice, k));
    RepeatSnoc(notice, k);
    SnocAssoc(head, Repeat(RefreshFetch(c), k + 1), Repeat(notice, k), notice);
    assert run.trace == before + [notice];
    DeliverSnoc(WithClient(p, mode, run.client), before, notice);
  }

  /** An expired access token and a working refresh: the call answers what the
      retry got, and the provider adopts and persists the new access token and
      hands it to both clients. */
  lemma RefreshReachesBothClients(p: Provider, mode: Mode, path: string, init: Init, token: string, reply: Outcome)
    requires InSync(p) && Registered(p) && Held(p.state.refreshToken) && token != ""
    ensures var a := Call(p, mode, path, init, [Unauthorized, Granted(token), reply]);
      && a.completion == Returned(Settle(reply))
      && a.provider.state == p.state.(accessToken := Some(token))
      && a.provider.storage == p.storage[AccessKey := token]
      && a.provider.enterprise.authToken == Some(token) && a.provider.personal.authToken == Some(token)
  {
    var c := ClientOf(p, mode);
    RefreshThenRetry(c, path, init, token, reply);
    var run := Request(c, path, init, 0, [Unauthorized, Granted(token), reply]);
    var p' := WithClient(p, mode, run.client);
    var head := [Fetched(FetchFor(c, path, init)), RefreshFetch(c), TokenSet(Some(token))];
    var last := Fetched(FetchFor(run.client, path, init));
    assert run.trace == head + [Notified(Some(token))] + [last];
    assert NoNotices(head);
    DeliverSnoc(p', head, Notified(Some(token)));
    DeliverSnoc(p', head + [Notified(Some(token))], last);
    assert Deliver(p', run.trace) == HandleTokenRefresh(p', Some(token));
  }

  /** One more event: a callback call is applied, anything else is skipped. */
  lemma DeliverSnoc(p: Provider, trace: seq<Event>, e: Event)
    ensures Deliver(p, trace + [e]) == if e.Notified? then HandleTokenRefresh(Deliver(p, trace), e.token) else Deliver(p, trace)
  {
    assert (trace + [e])[..|trace|] == trace;
  }
}
