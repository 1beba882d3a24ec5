/** Properties of the client pipeline that relate whole runs: how often each
    URL is fetched, what a chain of refused refreshes does, and the
    refresh-then-retry path. */
module ApiClientProperties {
  import opened Optional
  import opened Strings
  import opened Json
  import opened ApiClient

  /** A 401 on a first attempt with a refresh token held starts a refresh. */
  predicate StartsRefresh(c: Client, retryCount: nat, script: seq<Outcome>) {
    && script != []
    && Receive(script[0]).Received?
    && Receive(script[0]).status == 401
    && Held(c.refreshToken)
    && retryCount == 0
  }

  /** One step of `Request` when no refresh starts. */
  lemma RequestSettles(c: Client, path: string, init: Init, retryCount: nat, script: seq<Outcome>)
    requires script != [] && !StartsRefresh(c, retryCount, script)
    ensures Request(c, path, init, retryCount, script)
         == Run(Returned(Settle(script[0])), c, script[1..], [Fetched(FetchFor(c, path, init))])
  {
  }

  /** A refresh that fails ends the call in "Session expirée" with status 401,
      after calling the callback with "". */
  lemma RequestRefreshFails(c: Client, path: string, init: Init, script: seq<Outcome>)
    requires StartsRefresh(c, 0, script)
    requires RefreshAccessToken(c, script[1..]).completion.Returned?
    requires RefreshAccessToken(c, script[1..]).completion.result.Err?
    ensures var r := RefreshAccessToken(c, script[1..]);
      Request(c, path, init, 0, script)
      == Run(Returned(Err(JStr(SessionExpired), Some(401))), r.client, r.rest,
             [Fetched(FetchFor(c, path, init))] + r.trace + Notice(c, Some("")))
  {
  }

  /** A refresh that succeeds is followed by exactly one retry. */
  lemma RequestRefreshSucceeds(c: Client, path: string, init: Init, script: seq<Outcome>)
    requires StartsRefresh(c, 0, script)
    requires RefreshAccessToken(c, script[1..]).completion.Returned?
    requires RefreshAccessToken(c, script[1..]).completion.result.Ok?
    ensures var r := RefreshAccessToken(c, script[1..]);
      var again := Request(r.client, path, init, 1, r.rest);
      Request(c, path, init, 0, script)
      == Run(again.completion, again.client, again.rest, [Fetched(FetchFor(c, path, init))] + r.trace + again.trace)
  {
  }

  /** A refresh whose request does not succeed answers what that request answered. */
  lemma RefreshPassesFailure(c: Client, script: seq<Outcome>)
    requires Held(c.refreshToken)
    requires var r := Request(c, RefreshPath, RefreshInit(c.refreshToken.value), 0, script);
      !(r.completion.Returned? && r.completion.result.Ok?)
    ensures RefreshAccessToken(c, script) == Request(c, RefreshPath, RefreshInit(c.refreshToken.value), 0, script)
  {
  }

  /** A refresh whose request succeeds installs and announces the new token. */
  lemma RefreshInstalls(c: Client, script: seq<Outcome>)
    requires Held(c.refreshToken)
    requires var r := Request(c, RefreshPath, RefreshInit(c.refreshToken.value), 0, script);
      r.completion.Returned? && r.completion.result.Ok? && r.completion.result.data != JsonBody(JNull)
    ensures var r := Request(c, RefreshPath, RefreshInit(c.refreshToken.value), 0, script);
      var t := IssuedToken(r.completion.result.data);
      RefreshAccessToken(c, script)
      == Run(r.completion, r.client.(authToken := t), r.rest, r.trace + [TokenSet(t)] + Notice(c, t))
  {
  }

  /** How many fetches of `url` a trace holds. */
  function FetchCount(trace: seq<Event>, url: string): nat {
    if trace == [] then 0
    else
      var last := trace[|trace| - 1];
      FetchCount(trace[..|trace| - 1], url) + (if last.Fetched? && last.fetch.url == url then 1 else 0)
  }

  lemma FetchCountAppend(a: seq<Event>, b: seq<Event>, url: string)
    ensures FetchCount(a + b, url) == FetchCount(a, url) + FetchCount(b, url)
  {
    if b == [] {
      assert a + b == a;
    } else {
      assert (a + b)[..|a + b| - 1] == a + b[..|b| - 1];
      FetchCountAppend(a, b[..|b| - 1], url);
    }
  }

  lemma FetchCountOutside(trace: seq<Event>, urls: set<string>, url: string)
    requires FetchesOnly(trace, urls) && url !in urls
    ensures FetchCount(trace, url) == 0
  {
    if trace != [] {
      assert trace[|trace| - 1] in trace;
      FetchCountOutside(trace[..|trace| - 1], urls, url);
    }
  }

  /** `n` copies of `x`. */
  function Repeat<T>(x: T, n: nat): (r: seq<T>)
    ensures |r| == n && forall i :: 0 <= i < n ==> r[i] == x
  {
    if n == 0 then [] else [x] + Repeat(x, n - 1)
  }

  lemma RepeatSnoc<T>(x: T, n: nat)
    ensures Repeat(x, n) + [x] == Repeat(x, n + 1)
  {
  }

  /** Paths that differ give URLs that differ under the same base. */
  lemma DistinctUrls(base: string, p: string, q: string)
    requires p != q
    ensures base + p != base + q
  {
    assert (base + p)[|base|..] == p;
    assert (base + q)[|base|..] == q;
  }

  /** The path of one logical call is fetched at most twice: once, and once
      more after a successful refresh. Fetches made by the refresh itself all
      go to the refresh endpoint. */
  lemma {:induction false} OriginalPathFetchedAtMostTwice(c: Client, path: string, init: Init, script: seq<Outcome>)
    requires path != RefreshPath
    ensures FetchCount(Request(c, path, init, 0, script).trace, c.baseUrl + path) <= 2
  {
    var url := c.baseUrl + path;
    var run := Request(c, path, init, 0, script);
    var f := Fetched(FetchFor(c, path, init));
    DistinctUrls(c.baseUrl, path, RefreshPath);
    assert FetchCount([f], url) == 1 by {
      assert [f][..0] == [];
    }
    if script != [] {
      var read := Receive(script[0]);
      if read.Received? && read.status == 401 && Held(c.refreshToken) {
        var r := RefreshAccessToken(c, script[1..]);
        FetchCountOutside(r.trace, {c.baseUrl + RefreshPath}, url);
        FetchCountAppend([f], r.trace, url);
        if r.completion.Returned? && r.completion.result.Ok? {
          var again := Request(r.client, path, init, 1, r.rest);
          assert again.trace == [Fetched(FetchFor(r.client, path, init))];
          assert FetchCount(again.trace, url) == 1 by {
            assert again.trace[..0] == [];
          }
          FetchCountAppend([f] + r.trace, again.trace, url);
          assert run.trace == [f] + r.trace + again.trace;
        } else if r.completion.Returned? {
          var failed := Notice(r.client, Some(""));
          assert FetchCount(failed, url) == 0 by {
            if failed != [] { assert failed[..0] == []; }
          }
          FetchCountAppend([f] + r.trace, failed, url);
          assert run.trace == [f] + r.trace + failed;
        } else {
          assert run.trace == [f] + r.trace;
        }
      } else {
        assert run.trace == [f];
      }
    } else {
      assert run.trace == [f];
    }
  }

  /** A 401 whose body is empty text. */
  const Unauthorized: Outcome := Response(401, None, "", Unparsable(""))

  /** The fetch of the refresh endpoint by client `c`. */
  function RefreshFetch(c: Client): Event
    requires c.refreshToken.Some?
  {
    Fetched(FetchFor(c, RefreshPath, RefreshInit(c.refreshToken.value)))
  }

  /** A refresh endpoint's answers: 401 `k` times, then `failure`. */
  function Refusals(k: nat, failure: Outcome): (s: seq<Outcome>)
    ensures |s| == k + 1 && s[k] == failure
  {
    Repeat(Unauthorized, k) + [failure]
  }

  /** A chain with one more 401 opens with that 401. */
  lemma RefusalsUnfold(k: nat, failure: Outcome)
    requires k > 0
    ensures Refusals(k, failure)[0] == Unauthorized
    ensures Refusals(k, failure)[1..] == Refusals(k - 1, failure)
  {
    assert Repeat(Unauthorized, k) == [Unauthorized] + Repeat(Unauthorized, k - 1);
  }

  /** The trace of one more nested level: its fetch first, its notice last. */
  lemma NestedTrace(f: Event, n: Event, k: nat)
    requires k > 0
    ensures [f] + (Repeat(f, k) + Repeat(n, k - 1)) + [n] == Repeat(f, k + 1) + Repeat(n, k)
  {
    RepeatSnoc(n, k - 1);
    assert Repeat(f, k + 1) == [f] + Repeat(f, k);
  }

  /** A refresh endpoint that answers 401 `k` times and then fails otherwise:
      because the refresh goes through `request` with `retryCount` 0, each 401
      opens a nested refresh, so the endpoint is fetched `k + 1` times and the
      callback receives "" once per nested level. */
  lemma {:induction false} RefreshFailureChain(c: Client, k: nat, failure: Outcome)
    requires Held(c.refreshToken) && c.listening
    requires Settle(failure).Err? && Settle(failure).status != Some(401)
    ensures var r := RefreshAccessToken(c, Refusals(k, failure));
      && r.client == c
      && r.rest == []
      && r.completion == Returned(if k == 0 then Settle(failure) else Err(JStr(SessionExpired), Some(401)))
      && r.trace == Repeat(RefreshFetch(c), k + 1) + Repeat(Notified(Some("")), k)
  {
    var script := Refusals(k, failure);
    var init := RefreshInit(c.refreshToken.value);
    if k == 0 {
      assert script == [failure];
      RequestSettles(c, RefreshPath, init, 0, script);
      RefreshPassesFailure(c, script);
    } else {
      RefusalsUnfold(k, failure);
      RefreshFailureChain(c, k - 1, failure);
      assert Receive(Unauthorized) == Received(401, TextBody(""));
      RequestRefreshFails(c, RefreshPath, init, script);
      NestedTrace(RefreshFetch(c), Notified(Some("")), k);
      RefreshPassesFailure(c, script);
    }
  }

  /** Seen from a logical call: after a first 401, `k` further 401s from the
      refresh endpoint and a final refusal, the call ends in "Session expirée",
      the refresh endpoint has been fetched `k + 1` times and the callback has
      received "" `k + 1` times. No bound on the number of refresh fetches holds. */
  lemma {:induction false} SessionExpiresAfterRefusals(c: Client, path: string, init: Init, k: nat, failure: Outcome)
    requires Held(c.refreshToken) && c.listening
    requires Settle(failure).Err? && Settle(failure).status != Some(401)
    ensures var run := Request(c, path, init, 0, Refusals(k + 1, failure));
      && run.completion == Returned(Err(JStr(SessionExpired), Some(401)))
      && run.client == c
      && run.trace == [Fetched(FetchFor(c, path, init))] + (Repeat(RefreshFetch(c), k + 1)
                      + Repeat(Notified(Some("")), k + 1))
  {
    var script := Refusals(k + 1, failure);
    RefusalsUnfold(k + 1, failure);
    assert Receive(Unauthorized) == Received(401, TextBody(""));
    RefreshFailureChain(c, k, failure);
    RequestRefreshFails(c, path, init, script);
    RepeatSnoc(Notified(Some("")), k);
    SnocAssoc([Fetched(FetchFor(c, path, init))], Repeat(RefreshFetch(c), k + 1), Repeat(Notified(Some("")), k),
              Notified(Some("")));
  }

  /** Regrouping a trace: `a + (b + c) + [e]` is `a + (b + (c + [e]))`. */
  lemma SnocAssoc(a: seq<Event>, b: seq<Event>, c: seq<Event>, e: Event)
    ensures a + (b + c) + [e] == a + (b + (c + [e]))
  {
  }

  /** For every `n`, some script makes one logical call fetch the refresh
      endpoint more than `n` times. */
  lemma RefreshFetchesUnbounded(c: Client, path: string, init: Init, n: nat)
    requires Held(c.refreshToken) && c.listening
    ensures exists script :: FetchCount(Request(c, path, init, 0, script).trace, c.baseUrl + RefreshPath) > n
  {
    var failure := Response(500, None, "", Unparsable(""));
    assert Settle(failure) == Err(JStr(""), Some(500));
    var script := Refusals(n + 1, failure);
    SessionExpiresAfterRefusals(c, path, init, n, failure);
    var trace := Request(c, path, init, 0, script).trace;
    var refreshUrl := c.baseUrl + RefreshPath;
    var head := [Fetched(FetchFor(c, path, init))];
    var fetches := Repeat(RefreshFetch(c), n + 1);
    var notices := Repeat(Notified(Some("")), n + 1);
    FetchCountAppend(head, fetches + notices, refreshUrl);
    FetchCountAppend(fetches, notices, refreshUrl);
    AllFetchesCounted(RefreshFetch(c), n + 1, refreshUrl);
    assert FetchCount(trace, refreshUrl) > n;
  }

  lemma {:induction false} AllFetchesCounted(e: Event, n: nat, url: string)
    requires e.Fetched? && e.fetch.url == url
    ensures FetchCount(Repeat(e, n), url) == n
  {
    if n > 0 {
      RepeatSnoc(e, n - 1);
      assert Repeat(e, n)[..n - 1] == Repeat(e, n - 1);
      AllFetchesCounted(e, n - 1, url);
    }
  }

  /** A JSON 200 carrying a new access token. */
  function Granted(token: string): Outcome {
    Response(200, Some(JsonMediaType), "", Parsed(JObj(map["access_token" := JStr(token)])))
  }

  /** A refresh endpoint that grants `token` installs it and announces it,
      after one fetch. */
  lemma GrantedRefresh(c: Client, token: string, rest: seq<Outcome>)
    requires Held(c.refreshToken)
    ensures var r := RefreshAccessToken(c, [Granted(token)] + rest);
      && r.completion.Returned? && r.completion.result.Ok?
      && r.client == c.(authToken := Some(token))
      && r.rest == rest
      && r.trace == [RefreshFetch(c), TokenSet(Some(token))] + Notice(c, Some(token))
  {
    var script := [Granted(token)] + rest;
    var init := RefreshInit(c.refreshToken.value);
    assert Includes(JsonMediaType, JsonMediaType) by {
      assert MatchesAt(JsonMediaType, JsonMediaType, 0);
    }
    var answer := JsonBody(JObj(map["access_token" := JStr(token)]));
    assert Receive(script[0]) == Received(200, answer);
    assert script[1..] == rest;
    RequestSettles(c, RefreshPath, init, 0, script);
    assert IssuedToken(answer) == Some(token);
    RefreshInstalls(c, script);
  }

  /** The whole run of a call whose token expired, under a refresh that
      grants `token`: fetch, refresh, install and announce, refetch. */
  lemma RetryRun(c: Client, path: string, init: Init, token: string, reply: Outcome)
    requires Held(c.refreshToken)
    ensures var refreshed := c.(authToken := Some(token));
      Request(c, path, init, 0, [Unauthorized, Granted(token), reply])
      == Run(Returned(Settle(reply)), refreshed, [],
             [Fetched(FetchFor(c, path, init))] + ([RefreshFetch(c), TokenSet(Some(token))] + Notice(c, Some(token)))
             + [Fetched(FetchFor(refreshed, path, init))])
  {
    var script := [Unauthorized, Granted(token), reply];
    assert Receive(Unauthorized) == Received(401, TextBody(""));
    assert script[1..] == [Granted(token)] + [reply];
    GrantedRefresh(c, token, [reply]);
    var r := RefreshAccessToken(c, script[1..]);
    assert StartsRefresh(c, 0, script);
    RequestRefreshSucceeds(c, path, init, script);
    RequestSettles(r.client, path, init, 1, [reply]);
  }

  /** Expired access token, working refresh: the call is retried once with the
      new token in its `Authorization` header, and answers what the retry got. */
  lemma RefreshThenRetry(c: Client, path: string, init: Init, token: string, reply: Outcome)
    requires Held(c.refreshToken) && token != ""
    ensures var refreshed := c.(authToken := Some(token));
      Request(c, path, init, 0, [Unauthorized, Granted(token), reply])
      == Run(Returned(Settle(reply)), refreshed, [],
             [Fetched(FetchFor(c, path, init)), RefreshFetch(c), TokenSet(Some(token))] + Notice(c, Some(token))
             + [Fetched(FetchFor(refreshed, path, init))])
    ensures FetchFor(c.(authToken := Some(token)), path, init).headers[AuthorizationHeader] == "Bearer " + token
  {
    RetryRun(c, path, init, token, reply);
    var refreshed := c.(authToken := Some(token));
    Regroup(Fetched(FetchFor(c, path, init)), RefreshFetch(c), TokenSet(Some(token)), Notice(c, Some(token)),
            Fetched(FetchFor(refreshed, path, init)));
    assert Held(refreshed.authToken);
  }

  /** Regrouping a trace: `[f] + ([a, b] + n) + [g]` is `[f, a, b] + n + [g]`. */
  lemma Regroup(f: Event, a: Event, b: Event, n: seq<Event>, g: Event)
    ensures [f] + ([a, b] + n) + [g] == [f, a, b] + n + [g]
  {
  }

  /** A trace without assignments leaves the initial token in place. */
  lemma {:induction false} LastSetUnassigned(trace: seq<Event>, initial: Option<string>)
    requires forall e <- trace :: !e.TokenSet?
    ensures LastSet(trace, initial) == initial
  {
    if trace != [] {
      assert trace[|trace| - 1] in trace;
      LastSetUnassigned(trace[..|trace| - 1], initial);
    }
  }

  /** A refresh that fails assigns nothing itself: unless a nested refresh
      succeeded, the client comes back exactly as it was. */
  lemma RefreshFailureKeepsClient(c: Client, script: seq<Outcome>)
    requires RefreshAccessToken(c, script).completion.Returned?
    requires RefreshAccessToken(c, script).completion.result.Err?
    requires forall e <- RefreshAccessToken(c, script).trace :: !e.TokenSet?
    ensures RefreshAccessToken(c, script).client == c
  {
    LastSetUnassigned(RefreshAccessToken(c, script).trace, c.authToken);
  }
}
