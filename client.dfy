/** Tele2Ats2ClientAuth of src/tele2-ats2-client/client.js: the access-token
    lifecycle (cache, token store, single-flight re-authentication strategy)
    and the error policy of `callApiMethod`.

    The token store, the proxy store, the refresh endpoint and the wrapped API
    call are oracles: the reply to an effect is a function of the effect's
    position in the coordinator's `trace`, the log of every effect issued so
    far (sleeps included). */
module Client {
  import opened Js
  import opened Errors
  import opened ClientExceptions
  import opened TokenTypes
  import ApiMethods
  import ApiUtils
  import ProxyStores

  /** Something the coordinator asks of the outside world. */
  datatype Effect =
    | TokenStoreLoadAccess
    | TokenStoreLoadRefresh
    | TokenStoreSave(pair: TokenPair)
    | ProxyStoreLoad
      /** `tele2ats2api.refreshTokens({ refreshToken, proxy })`. */
    | RefreshTokensRequest(refreshToken: Option<string>, proxy: Option<ApiUtils.ProxyHttp>)
      /** `await this.#sleep(ms)`. */
    | Sleep(ms: nat)
      /** `callApi(accessToken, proxy)`. */
    | ApiCall(accessToken: string, proxy: Option<ApiUtils.ProxyHttp>)

  /** The collaborators handed to the constructor, as reply oracles indexed by
      trace position. `proxyStore` is None when no proxy store was given. */
  datatype Environment = Environment(
    loadAccessToken: nat -> Outcome<Option<string>>,
    loadRefreshToken: nat -> Outcome<Option<string>>,
    saveTokens: nat -> Outcome<()>,
    proxyStore: Option<nat -> Outcome<Option<ProxyStores.ProxyLoad>>>,
    refreshTokens: nat -> Outcome<TokenPair>)

  /** A sequence of effects and how it settled. */
  datatype Run<+T> = Run(effects: seq<Effect>, outcome: Outcome<T>)

  const DefaultAttempts: seq<nat> := [1000, 3000, 5000]

  /** `props.strategyConfig?.attempts || [1000, 3000, 5000]`: an array is
      truthy even when empty, so only an absent schedule is replaced. */
  function Schedule(configured: Option<seq<nat>>): (attempts: seq<nat>)
    ensures configured.None? ==> attempts == DefaultAttempts
    ensures configured.Some? ==> attempts == configured.value
  {
    match configured
    case None => DefaultAttempts
    case Some(a) => a
  }

  /** The proxy store's reply; without a configured store, `new StaticProxyStore()`. */
  function ProxyReply(env: Environment, n: nat): Outcome<Option<ProxyStores.ProxyLoad>> {
    match env.proxyStore
    case None => Resolved(ProxyStores.LoadProxy(ProxyStores.StaticProxyStore(None)))
    case Some(reply) => reply(n)
  }

  /** `#loadProxy()`: `loadProxy?.proxy`, or a proxy error naming the cause. */
  function LoadedProxy(reply: Outcome<Option<ProxyStores.ProxyLoad>>): (r: Outcome<Option<ApiUtils.ProxyHttp>>)
    ensures reply.Resolved? ==> r == Resolved(ProxyStores.ProxyOf(reply.value))
    ensures reply.Rejected? ==> r.Rejected? && r.error == ClientError(ClientProxy, "Error load proxy: " + TemplateMessage(reply.error))
  {
    match reply
    case Resolved(load) => Resolved(ProxyStores.ProxyOf(load))
    case Rejected(e) => Rejected(NewClientError(ClientProxy, "Error load proxy: " + TemplateMessage(e)))
  }

  const LossTruthPrefix: string := "Maybe all tokens are expired?"

  /** The LossTruth message as written for an empty cause: the bare
      parentheses, without the prefix. */
  const EmptyCauseMessage: string := " ()"

  /** The message `#throwLossTruthTokenError(msg)` builds as written. The
      conditional binds looser than `+`, so its condition is the whole
      concatenation "Maybe all tokens are expired?" + msg, which is never
      empty. */
  function WrittenLossTruthMessage(msg: Option<string>): string
  {
    var condition := LossTruthPrefix + JsString(msg);
    if condition != "" then " (" + JsString(msg) + ")" else ""
  }

  /** Whatever the cause, the written message is that cause in parentheses:
      the condition is never empty, so the prefix is always dropped. */
  lemma WrittenLossTruthShape(msg: Option<string>)
    ensures WrittenLossTruthMessage(msg) == " (" + JsString(msg) + ")"
    ensures WrittenLossTruthMessage(Some("")) == EmptyCauseMessage
  {
    var condition := LossTruthPrefix + JsString(msg);
    assert condition[0] == 'M';
  }

  /** The message as intended: the prefix, followed by the cause in
      parentheses when there is a non-empty one. */
  function LossTruthMessage(msg: Option<string>): string
  {
    LossTruthPrefix + (if Truthy(msg) then " (" + msg.value + ")" else "")
  }

  /** The intended message always starts with the prefix; a non-empty cause
      follows it in parentheses, and an absent or empty one adds nothing. */
  lemma LossTruthKeepsPrefix(msg: Option<string>)
    ensures LossTruthPrefix <= LossTruthMessage(msg)
    ensures Truthy(msg) ==> LossTruthMessage(msg)[|LossTruthPrefix|..] == " (" + msg.value + ")"
    ensures !Truthy(msg) ==> LossTruthMessage(msg) == LossTruthPrefix
  {
    var r := LossTruthMessage(msg);
    assert r[..|LossTruthPrefix|] == LossTruthPrefix;
  }

  /** What `#throwLossTruthTokenError(msg)` throws: a LossTruth client error
      with the message as written, the cause in parentheses and no prefix. */
  function LossTruthError(msg: Option<string>): (e: Thrown)
    ensures e == ClientError(ClientLossTruthToken, WrittenLossTruthMessage(msg))
  {
    NewClientError(ClientLossTruthToken, WrittenLossTruthMessage(msg))
  }

  /** As written, the "Maybe all tokens are expired?" prefix never reaches
      the message, which therefore never equals the intended one; an absent
      cause even shows as " (undefined)". */
  lemma LossTruthDropsPrefix(msg: Option<string>)
    ensures !(LossTruthPrefix <= WrittenLossTruthMessage(msg))
    ensures WrittenLossTruthMessage(msg) != LossTruthMessage(msg)
    ensures WrittenLossTruthMessage(None) == " (undefined)"
  {
    var written := WrittenLossTruthMessage(msg);
    WrittenLossTruthShape(msg);
    WrittenLossTruthShape(None);
    assert written[0] == ' ' && LossTruthPrefix[0] == 'M';
    assert LossTruthMessage(msg)[0] == LossTruthPrefix[0];
  }

  /** `{ ok }` or `{ err }` of `#authorization`. */
  datatype MaybeAuth = Ok(pair: TokenPair) | Err(err: Thrown)

  /** `#authorization({ refreshToken })` from position `start`: load the proxy
      (a proxy failure escapes the `.catch`), then ask for a new pair. */
  function Authorize(env: Environment, refreshToken: Option<string>, start: nat): (r: Run<MaybeAuth>)
    // the proxy is loaded first, and only its failure rejects
    ensures |r.effects| >= 1 && r.effects[0] == ProxyStoreLoad
    ensures r.outcome.Rejected? <==> ProxyReply(env, start).Rejected?
    ensures r.outcome.Rejected? ==> r.effects == [ProxyStoreLoad] && r.outcome.error.ClientError? && r.outcome.error.clientKind == ClientProxy
    // otherwise exactly one refresh request follows, whatever its reply
    ensures r.outcome.Resolved? ==> |r.effects| == 2 && r.effects[1].RefreshTokensRequest?
  {
    match LoadedProxy(ProxyReply(env, start))
    case Rejected(e) => Run([ProxyStoreLoad], Rejected(e))
    case Resolved(proxy) =>
      Run([ProxyStoreLoad, RefreshTokensRequest(refreshToken, proxy)],
          match env.refreshTokens(start + 1)
          case Resolved(pair) => Resolved(Ok(pair))
          case Rejected(err) => Resolved(Err(err)))
  }

  datatype PollStatus = Recovered(token: string) | StoreFailed(error: Thrown) | Exhausted

  datatype Poll = Poll(status: PollStatus, effects: seq<Effect>)

  /** The reply to the j-th store poll of a schedule that starts at `start`. */
  function PollReply(env: Environment, start: nat, j: nat): Outcome<Option<string>> {
    env.loadAccessToken(start + 2 * j + 1)
  }

  /** The reply to the j-th store poll after a failed refresh that began at `start`. */
  function StrategyPoll(env: Environment, start: nat, j: nat): Outcome<Option<string>> {
    PollReply(env, start + 3, j)
  }

  /** A poll that found nothing and lets the schedule go on. */
  predicate Empty(reply: Outcome<Option<string>>) {
    reply.Resolved? && !Truthy(reply.value)
  }

  /** The `for (const delay of this.#attempts)` loop from position `start`:
      sleep, then read the store; a token or a store failure ends it. */
  function PollStore(env: Environment, delays: seq<nat>, start: nat): (p: Poll)
    // only a truthy token ends the schedule as recovered
    ensures p.status.Recovered? ==> p.status.token != ""
    decreases |delays|
  {
    if delays == [] then Poll(Exhausted, [])
    else
      var head := [Sleep(delays[0]), TokenStoreLoadAccess];
      match env.loadAccessToken(start + 1)
      case Rejected(e) => Poll(StoreFailed(e), head)
      case Resolved(t) =>
        if Truthy(t) then Poll(Recovered(t.value), head)
        else
          var rest := PollStore(env, delays[1..], start + 2);
          Poll(rest.status, head + rest.effects)
  }

  /** `#strategyAuth()` from position `start`. */
  function Strategy(env: Environment, attempts: seq<nat>, start: nat): (r: Run<string>)
    // the refresh token is read first, whatever follows
    ensures |r.effects| >= 1 && r.effects[0] == TokenStoreLoadRefresh
  {
    match env.loadRefreshToken(start)
    case Rejected(e) => Run([TokenStoreLoadRefresh], Rejected(e))
    case Resolved(refreshToken) =>
      var auth := Authorize(env, refreshToken, start + 1);
      var asked := [TokenStoreLoadRefresh] + auth.effects;
      match auth.outcome
      case Rejected(e) => Run(asked, Rejected(e))
      case Resolved(Ok(pair)) =>
        Run(asked + [TokenStoreSave(pair)],
            match env.saveTokens(start + |asked|)
            case Rejected(e) => Rejected(e)
            case Resolved(_) => Resolved(pair.accessToken))
      case Resolved(Err(err)) =>
        var poll := PollStore(env, attempts, start + |asked|);
        Run(asked + poll.effects,
            match poll.status
            case Recovered(token) => Resolved(token)
            case StoreFailed(e) => Rejected(e)
            case Exhausted => Rejected(LossTruthError(MessageProperty(err))))
  }

  /** `#getAccessToken()` from position `start` with the cache holding `cache`:
      cache, then store, then the strategy (started or joined). */
  function TokenLookup(env: Environment, attempts: seq<nat>, cache: Option<string>, start: nat): (r: Run<string>)
    // a cached token is returned without touching anything
    ensures Truthy(cache) ==> r == Run([], Resolved(cache.value))
    // otherwise the store is read first, and the strategy only after it
    ensures !Truthy(cache) ==> |r.effects| >= 1 && r.effects[0] == TokenStoreLoadAccess
    ensures |r.effects| > 1 ==> r.effects[1] == TokenStoreLoadRefresh && Empty(env.loadAccessToken(start))
    // a truthy store token is the result, and a store failure propagates
    ensures !Truthy(cache) && env.loadAccessToken(start).Resolved? && Truthy(env.loadAccessToken(start).value)
      ==> r == Run([TokenStoreLoadAccess], Resolved(env.loadAccessToken(start).value.value))
    ensures !Truthy(cache) && env.loadAccessToken(start).Rejected?
      ==> r == Run([TokenStoreLoadAccess], Rejected(env.loadAccessToken(start).error))
    // an empty store gives the strategy's outcome, after its effects
    ensures !Truthy(cache) && Empty(env.loadAccessToken(start))
      ==> r == Run([TokenStoreLoadAccess] + Strategy(env, attempts, start + 1).effects, Strategy(env, attempts, start + 1).outcome)
  {
    if Truthy(cache) then Run([], Resolved(cache.value))
    else match env.loadAccessToken(start)
      case Rejected(e) => Run([TokenStoreLoadAccess], Rejected(e))
      case Resolved(token) =>
        if Truthy(token) then Run([TokenStoreLoadAccess], Resolved(token.value))
        else
          var run := Strategy(env, attempts, start + 1);
          Run([TokenStoreLoadAccess] + run.effects, run.outcome)
  }

  /** What the first `catch` of `callApiMethod` does with a failure. */
  datatype Recovery = Rethrow(error: Thrown) | Reauthenticate

  function FirstFailure(e: Thrown): (r: Recovery)
    // client errors (LossTruth and Proxy included) pass through unchanged
    ensures e.ClientError? ==> r == Rethrow(e)
    // only an Unauthorized API error leads to re-authentication
    ensures r.Reauthenticate? <==> e.ApiError? && e.apiKind == ApiUnauthorized
    // anything else becomes a plain client error with the same message
    ensures !e.ClientError? && r.Rethrow? ==> r.error == ClientError(ClientGeneric, TemplateMessage(e))
  {
    if e.ClientError? then Rethrow(e)
    else if !(e.ApiError? && e.apiKind == ApiUnauthorized) then Rethrow(NewClientError(ClientGeneric, TemplateMessage(e)))
    else Reauthenticate
  }

  /** The inner `catch` around the retry: what the retry's failure becomes. */
  function RetryFailure(e: Thrown): (r: Thrown)
    ensures r.ClientError?
    // a second Unauthorized ends in LossTruth, carrying its message
    ensures e.ApiError? && e.apiKind == ApiUnauthorized ==> r == LossTruthError(Some(e.message))
    // every other failure, client errors included, becomes a plain client error
    ensures !(e.ApiError? && e.apiKind == ApiUnauthorized) ==> r == ClientError(ClientGeneric, TemplateMessage(e))
  {
    if e.ApiError? && e.apiKind == ApiUnauthorized then LossTruthError(Some(e.message))
    else NewClientError(ClientGeneric, TemplateMessage(e))
  }

  /** The two catch blocks in terms of the `instanceof` tests client.js
      writes: client errors pass the first unchanged, only Unauthorized
      re-authenticates, and whatever either rethrows is a client error. */
  lemma CatchesByClass(e: Thrown)
    ensures InstanceOf(e, Tele2Ats2ClientError) ==> FirstFailure(e) == Rethrow(e)
    ensures FirstFailure(e).Reauthenticate? <==> InstanceOf(e, Tele2Ats2ApiUnauthorizedError)
    ensures FirstFailure(e).Rethrow? ==> InstanceOf(FirstFailure(e).error, Tele2Ats2ClientError)
    ensures InstanceOf(RetryFailure(e), Tele2Ats2ClientError)
    ensures InstanceOf(e, Tele2Ats2ApiUnauthorizedError) <==> RetryFailure(e).clientKind == ClientLossTruthToken
  {
    TaxonomyInstances(e);
    if FirstFailure(e).Rethrow? {
      TaxonomyInstances(FirstFailure(e).error);
    }
    TaxonomyInstances(RetryFailure(e));
  }

  /** Awaiting a token run, then `callApi(token, proxy)` at the next position. */
  function Attempt<D>(token: Run<string>, proxy: Option<ApiUtils.ProxyHttp>, start: nat, callApi: nat -> Outcome<D>): Run<D> {
    match token.outcome
    case Rejected(e) => Run(token.effects, Rejected(e))
    case Resolved(t) => Run(token.effects + [ApiCall(t, proxy)], callApi(start + |token.effects|))
  }

  /** A run with effects in front of it. */
  function Prefixed<T>(prefix: seq<Effect>, run: Run<T>): Run<T> {
    Run(prefix + run.effects, run.outcome)
  }

  /** The inner `catch`: how the retry's failure is rethrown. */
  function Retried<D>(again: Run<D>): Run<D> {
    if again.outcome.Resolved? then again else Run(again.effects, Rejected(RetryFailure(again.outcome.error)))
  }

  /** The outer `catch` of `callApiMethod`, given how the `try` block that
      began at `start` went: pass through, wrap, or re-authenticate and retry
      once without the proxy. */
  function Caught<D>(env: Environment, attempts: seq<nat>, tried: Run<D>, start: nat, callApi: nat -> Outcome<D>): (r: Run<D>)
    // a successful `try` is returned as it is
    ensures tried.outcome.Resolved? ==> r == tried
    // whatever the `catch` rethrows is a client error
    ensures tried.outcome.Rejected? && r.outcome.Rejected? ==> r.outcome.error.ClientError?
  {
    if tried.outcome.Resolved? then tried
    else match FirstFailure(tried.outcome.error)
      case Rethrow(t) => Run(tried.effects, Rejected(t))
      case Reauthenticate =>
        var at := start + |tried.effects|;
        Prefixed(tried.effects, Retried(Attempt(Strategy(env, attempts, at), None, at, callApi)))
  }

  /** The re-authenticating branch of the outer `catch`, on its own. */
  lemma CaughtReauthenticates<D>(env: Environment, attempts: seq<nat>, tried: Run<D>, start: nat, callApi: nat -> Outcome<D>)
    requires tried.outcome.Rejected? && FirstFailure(tried.outcome.error).Reauthenticate?
    ensures var at := start + |tried.effects|;
      Caught(env, attempts, tried, start, callApi) == Prefixed(tried.effects, Retried(Attempt(Strategy(env, attempts, at), None, at, callApi)))
  {
  }

  /** The outcome of the re-authenticating branch, with the retry's position
      given. */
  lemma CaughtRetryOutcome<D>(env: Environment, attempts: seq<nat>, tried: Run<D>, start: nat, at: nat, callApi: nat -> Outcome<D>)
    requires tried.outcome.Rejected? && FirstFailure(tried.outcome.error).Reauthenticate?
    requires at == start + |tried.effects|
    ensures Caught(env, attempts, tried, start, callApi).outcome == Retried(Attempt(Strategy(env, attempts, at), None, at, callApi)).outcome
  {
  }

  /** Effects issued in three steps, read as one extension of the first. */
  lemma Regroup(a: seq<Effect>, b: seq<Effect>, c: seq<Effect>)
    ensures a + b + c == a + (b + c)
  {
  }

  /** `callApiMethod(callApi)` from position `start` with the cache holding
      `cache`: the proxy is loaded before the `try` block. */
  function ApiCallRun<D>(env: Environment, attempts: seq<nat>, cache: Option<string>, start: nat, callApi: nat -> Outcome<D>): (r: Run<D>)
    // the proxy is loaded before anything else
    ensures |r.effects| >= 1 && r.effects[0] == ProxyStoreLoad
    // every failure is a client error
    ensures r.outcome.Rejected? ==> r.outcome.error.ClientError?
  {
    match LoadedProxy(ProxyReply(env, start))
    case Rejected(e) => Run([ProxyStoreLoad], Rejected(e))
    case Resolved(proxy) =>
      Prefixed([ProxyStoreLoad], Caught(env, attempts, Attempt(TokenLookup(env, attempts, cache, start + 1), proxy, start + 1, callApi), start + 1, callApi))
  }

  /** Once the proxy is loaded, `callApiMethod` is the outer `catch` around
      the `try` block. */
  lemma ApiCallRunProceeds<D>(env: Environment, attempts: seq<nat>, cache: Option<string>, start: nat, callApi: nat -> Outcome<D>)
    requires LoadedProxy(ProxyReply(env, start)).Resolved?
    ensures var proxy := LoadedProxy(ProxyReply(env, start)).value;
      ApiCallRun(env, attempts, cache, start, callApi)
      == Prefixed([ProxyStoreLoad], Caught(env, attempts, Attempt(TokenLookup(env, attempts, cache, start + 1), proxy, start + 1, callApi), start + 1, callApi))
  {
  }

  /** The coordinator's mutable state: `#tokenStoreAccessToken`, whether a
      strategy run is in flight, and how many runs have been started. */
  datatype AuthState = AuthState(cache: Option<string>, inFlight: bool, runs: nat)

  /** The state once `await this.runStrategyAuth()` settled with `outcome`. */
  function Awaited(s: AuthState, outcome: Outcome<string>): (t: AuthState)
    // nothing is left in flight, and only a run started from idle is counted
    ensures !t.inFlight && t.runs == s.runs + (if s.inFlight then 0 else 1)
    // the token the run produced is cached
    ensures outcome.Resolved? ==> t.cache == Some(outcome.value)
    // a run started from idle cleared the cache, and a failure leaves it clear
    ensures outcome.Rejected? ==> t.cache == if s.inFlight then s.cache else None
  {
    AuthState(if outcome.Resolved? then Some(outcome.value) else if s.inFlight then s.cache else None,
              false, if s.inFlight then s.runs else s.runs + 1)
  }

  /** The state after `#getAccessToken()` from position `start`. */
  function LookupState(env: Environment, attempts: seq<nat>, s: AuthState, start: nat): (t: AuthState)
    // a cached token changes nothing
    ensures Truthy(s.cache) ==> t == s
    // at most one strategy run is started
    ensures t.runs <= s.runs + 1
  {
    if Truthy(s.cache) then s
    else match env.loadAccessToken(start)
      case Rejected(_) => s
      case Resolved(token) =>
        if Truthy(token) then s.(cache := token)
        else Awaited(s, Strategy(env, attempts, start + 1).outcome)
  }

  /** The state after the outer `catch`, given the state `s` and the run
      `tried` of the `try` block that began at `start`. */
  function CaughtState<D>(env: Environment, attempts: seq<nat>, s: AuthState, tried: Run<D>, start: nat): (t: AuthState)
    // only re-authentication touches the state
    ensures tried.outcome.Resolved? || FirstFailure(tried.outcome.error).Rethrow? ==> t == s
  {
    if tried.outcome.Resolved? then s
    else match FirstFailure(tried.outcome.error)
      case Rethrow(_) => s
      case Reauthenticate => Awaited(s, Strategy(env, attempts, start + |tried.effects|).outcome)
  }

  /** The state after `callApiMethod(callApi)` from position `start`. */
  function ApiCallState<D>(env: Environment, attempts: seq<nat>, s: AuthState, start: nat, callApi: nat -> Outcome<D>): (t: AuthState)
    // a proxy failure changes nothing
    ensures ProxyReply(env, start).Rejected? ==> t == s
    // at most two strategy runs are started: one by the lookup, one by the retry
    ensures t.runs <= s.runs + 2
  {
    match LoadedProxy(ProxyReply(env, start))
    case Rejected(_) => s
    case Resolved(proxy) =>
      var tried := Attempt(TokenLookup(env, attempts, s.cache, start + 1), proxy, start + 1, callApi);
      CaughtState(env, attempts, LookupState(env, attempts, s, start + 1), tried, start + 1)
  }

  /** How many strategy runs the effects hold: each run begins by reading
      the refresh token, and nothing else reads it. */
  function Strategies(effects: seq<Effect>): nat
  {
    if effects == [] then 0
    else (if effects[0] == TokenStoreLoadRefresh then 1 else 0) + Strategies(effects[1..])
  }

  /** The delays slept, in order. */
  function Delays(effects: seq<Effect>): seq<nat>
  {
    if effects == [] then []
    else (if effects[0].Sleep? then [effects[0].ms] else []) + Delays(effects[1..])
  }

  /** The API calls made, in order. */
  function Calls(effects: seq<Effect>): (calls: seq<Effect>)
    ensures forall i :: 0 <= i < |calls| ==> calls[i].ApiCall?
    ensures |calls| <= |effects|
  {
    if effects == [] then []
    else (if effects[0].ApiCall? then [effects[0]] else []) + Calls(effects[1..])
  }

  lemma {:induction false} DelaysAppend(a: seq<Effect>, b: seq<Effect>)
    ensures Delays(a + b) == Delays(a) + Delays(b)
  {
    if a == [] {
      assert a + b == b;
    } else {
      assert (a + b)[0] == a[0] && (a + b)[1..] == a[1..] + b;
      DelaysAppend(a[1..], b);
      var first := if a[0].Sleep? then [a[0].ms] else [];
      assert Delays(a + b) == first + (Delays(a[1..]) + Delays(b));
      assert first + (Delays(a[1..]) + Delays(b)) == (first + Delays(a[1..])) + Delays(b);
    }
  }

  lemma {:induction false} CallsAppend(a: seq<Effect>, b: seq<Effect>)
    ensures Calls(a + b) == Calls(a) + Calls(b)
  {
    if a == [] {
      assert a + b == b;
    } else {
      assert (a + b)[0] == a[0] && (a + b)[1..] == a[1..] + b;
      CallsAppend(a[1..], b);
      var first := if a[0].ApiCall? then [a[0]] else [];
      assert Calls(a + b) == first + (Calls(a[1..]) + Calls(b));
      assert first + (Calls(a[1..]) + Calls(b)) == (first + Calls(a[1..])) + Calls(b);
    }
  }

  lemma {:induction false} NoCalls(effects: seq<Effect>)
    requires forall i :: 0 <= i < |effects| ==> !effects[i].ApiCall?
    ensures Calls(effects) == []
  {
    if effects != [] {
      NoCalls(effects[1..]);
    }
  }

  lemma {:induction false} NoDelays(effects: seq<Effect>)
    requires forall i :: 0 <= i < |effects| ==> !effects[i].Sleep?
    ensures Delays(effects) == []
  {
    if effects != [] {
      NoDelays(effects[1..]);
    }
  }

  /** One round of the schedule sleeps once and calls nothing. */
  lemma PollRound(d: nat)
    ensures Delays([Sleep(d), TokenStoreLoadAccess]) == [d]
    ensures Calls([Sleep(d), TokenStoreLoadAccess]) == []
  {
    var head := [Sleep(d), TokenStoreLoadAccess];
    var tail := [TokenStoreLoadAccess];
    assert head[1..] == tail && tail[1..] == [];
    assert Delays(tail) == [] + Delays([]);
    assert Calls(tail) == [] + Calls([]);
    assert Delays(head) == [d] + Delays(tail);
  }

  /** Polling only sleeps and reads the store. */
  lemma {:induction false} PollOnlySleepsAndReads(env: Environment, delays: seq<nat>, start: nat)
    ensures forall i :: 0 <= i < |PollStore(env, delays, start).effects| ==>
      PollStore(env, delays, start).effects[i] == TokenStoreLoadAccess || PollStore(env, delays, start).effects[i].Sleep?
    ensures Calls(PollStore(env, delays, start).effects) == []
    decreases |delays|
  {
    var poll := PollStore(env, delays, start);
    if delays != [] {
      var head := [Sleep(delays[0]), TokenStoreLoadAccess];
      var next := start + 2;
      var rest := PollStore(env, delays[1..], next);
      PollOnlySleepsAndReads(env, delays[1..], next);
      if poll.effects != head {
        assert poll.effects == head + rest.effects;
        forall i | 2 <= i < |poll.effects|
          ensures poll.effects[i] == TokenStoreLoadAccess || poll.effects[i].Sleep?
        {
          assert poll.effects[i] == rest.effects[i - 2];
        }
      }
    }
    NoCalls(poll.effects);
  }

  /** When every poll finds nothing the schedule runs out, having slept
      every delay in schedule order. */
  lemma {:induction false} PollRunsOut(env: Environment, delays: seq<nat>, start: nat)
    requires forall j: nat :: j < |delays| ==> Empty(PollReply(env, start, j))
    ensures PollStore(env, delays, start).status == Exhausted
    ensures Delays(PollStore(env, delays, start).effects) == delays
    decreases |delays|
  {
    if delays != [] {
      var head := [Sleep(delays[0]), TokenStoreLoadAccess];
      var next := start + 2;
      assert Empty(PollReply(env, start, 0));
      forall j: nat | j < |delays| - 1 ensures Empty(PollReply(env, next, j)) {
        assert PollReply(env, next, j) == PollReply(env, start, j + 1);
      }
      PollRunsOut(env, delays[1..], next);
      var rest := PollStore(env, delays[1..], next);
      assert PollStore(env, delays, start) == Poll(rest.status, head + rest.effects);
      DelaysAppend(head, rest.effects);
      PollRound(delays[0]);
      assert delays == [delays[0]] + delays[1..];
    }
  }

  /** A poll that finds a token or fails keeps the schedule from running out. */
  lemma {:induction false} PollEndsEarly(env: Environment, delays: seq<nat>, start: nat, k: nat)
    requires k < |delays| && !Empty(PollReply(env, start, k))
    ensures PollStore(env, delays, start).status != Exhausted
    decreases k
  {
    if Empty(PollReply(env, start, 0)) {
      var next := start + 2;
      assert k != 0;
      assert PollReply(env, next, k - 1) == PollReply(env, start, k);
      PollEndsEarly(env, delays[1..], next, k - 1);
      assert PollStore(env, delays, start).status == PollStore(env, delays[1..], next).status;
    }
  }

  /** The schedule runs out exactly when every poll finds nothing; it has then
      slept every delay, in schedule order. */
  lemma PollExhaustion(env: Environment, delays: seq<nat>, start: nat)
    ensures PollStore(env, delays, start).status == Exhausted
        <==> forall j: nat :: j < |delays| ==> Empty(PollReply(env, start, j))
    ensures PollStore(env, delays, start).status == Exhausted ==> Delays(PollStore(env, delays, start).effects) == delays
  {
    if forall j: nat :: j < |delays| ==> Empty(PollReply(env, start, j)) {
      PollRunsOut(env, delays, start);
    } else {
      var k: nat :| k < |delays| && !Empty(PollReply(env, start, k));
      PollEndsEarly(env, delays, start, k);
    }
  }

  /** The first poll that finds a token or fails ends the schedule: no
      further sleeps, and the token or the failure is the result. */
  lemma {:induction false} PollStopsAt(env: Environment, delays: seq<nat>, start: nat, k: nat)
    requires k < |delays|
    requires forall j: nat :: j < k ==> Empty(PollReply(env, start, j))
    requires !Empty(PollReply(env, start, k))
    ensures PollStore(env, delays, start).status
         == if PollReply(env, start, k).Rejected? then StoreFailed(PollReply(env, start, k).error)
            else Recovered(PollReply(env, start, k).value.value)
    ensures Delays(PollStore(env, delays, start).effects) == delays[..k + 1]
    decreases k
  {
    var head := [Sleep(delays[0]), TokenStoreLoadAccess];
    PollRound(delays[0]);
    if k == 0 {
      assert PollReply(env, start, 0) == env.loadAccessToken(start + 1);
    } else {
      assert Empty(PollReply(env, start, 0));
      assert PollReply(env, start, 0) == env.loadAccessToken(start + 1);
      var next := start + 2;
      forall j: nat | j < k - 1 ensures Empty(PollReply(env, next, j)) {
        assert PollReply(env, next, j) == PollReply(env, start, j + 1);
      }
      assert PollReply(env, next, k - 1) == PollReply(env, start, k);
      PollStopsAt(env, delays[1..], next, k - 1);
      var rest := PollStore(env, delays[1..], next);
      DelaysAppend(head, rest.effects);
      assert delays[..k + 1] == [delays[0]] + delays[1..][..k];
    }
  }

  /** The strategy makes no API call. */
  lemma StrategyMakesNoCall(env: Environment, attempts: seq<nat>, start: nat)
    ensures Calls(Strategy(env, attempts, start).effects) == []
  {
    NoCalls([TokenStoreLoadRefresh]);
    var loaded := env.loadRefreshToken(start);
    if loaded.Resolved? {
      var auth := Authorize(env, loaded.value, start + 1);
      var asked := [TokenStoreLoadRefresh] + auth.effects;
      NoCalls(auth.effects);
      CallsAppend([TokenStoreLoadRefresh], auth.effects);
      if auth.outcome.Resolved? {
        match auth.outcome.value
        case Ok(pair) =>
          NoCalls([TokenStoreSave(pair)]);
          CallsAppend(asked, [TokenStoreSave(pair)]);
        case Err(_) =>
          var poll := PollStore(env, attempts, start + |asked|);
          PollOnlySleepsAndReads(env, attempts, start + |asked|);
          CallsAppend(asked, poll.effects);
      }
    }
  }

  /** The strategy's only refresh request is its third effect. */
  lemma StrategyRefreshesOnce(env: Environment, attempts: seq<nat>, start: nat)
    ensures forall i :: 0 <= i < |Strategy(env, attempts, start).effects| && Strategy(env, attempts, start).effects[i].RefreshTokensRequest? ==> i == 2
  {
    var run := Strategy(env, attempts, start);
    if env.loadRefreshToken(start).Resolved? {
      var auth := Authorize(env, env.loadRefreshToken(start).value, start + 1);
      var asked := [TokenStoreLoadRefresh] + auth.effects;
      if auth.outcome.Resolved? && auth.outcome.value.Err? {
        var poll := PollStore(env, attempts, start + |asked|);
        PollOnlySleepsAndReads(env, attempts, start + |asked|);
        assert run.effects == asked + poll.effects;
        forall i | |asked| <= i < |run.effects| ensures !run.effects[i].RefreshTokensRequest? {
          assert run.effects[i] == poll.effects[i - |asked|];
        }
      }
    }
  }

  /** A refresh that succeeds saves the new pair (under this store's own
      arbitration) and returns its access token, unless saving fails; the
      store is never polled. */
  lemma RefreshSuccessSaves(env: Environment, attempts: seq<nat>, start: nat)
    requires env.loadRefreshToken(start).Resolved?
    requires LoadedProxy(ProxyReply(env, start + 1)).Resolved?
    requires env.refreshTokens(start + 2).Resolved?
    ensures var pair := env.refreshTokens(start + 2).value;
      && Strategy(env, attempts, start).effects[3] == TokenStoreSave(pair)
      && |Strategy(env, attempts, start).effects| == 4
      && Delays(Strategy(env, attempts, start).effects) == []
      && Strategy(env, attempts, start).outcome
         == if env.saveTokens(start + 3).Resolved? then Resolved(pair.accessToken) else Rejected(env.saveTokens(start + 3).error)
  {
    NoDelays(Strategy(env, attempts, start).effects);
  }

  /** A failed refresh followed by a schedule in which every poll comes back
      empty ends in LossTruth, carrying the refresh failure's message, after
      sleeping every delay. */
  lemma StrategyGivesUp(env: Environment, attempts: seq<nat>, start: nat)
    requires env.loadRefreshToken(start).Resolved?
    requires LoadedProxy(ProxyReply(env, start + 1)).Resolved?
    requires env.refreshTokens(start + 2).Rejected?
    requires forall j: nat :: j < |attempts| ==> Empty(StrategyPoll(env, start, j))
    ensures Strategy(env, attempts, start).outcome == Rejected(LossTruthError(MessageProperty(env.refreshTokens(start + 2).error)))
    ensures Delays(Strategy(env, attempts, start).effects) == attempts
  {
    var run := Strategy(env, attempts, start);
    var asked := run.effects[..3];
    var pollStart := start + 3;
    var poll := PollStore(env, attempts, pollStart);
    forall j: nat | j < |attempts| ensures Empty(PollReply(env, pollStart, j)) {
      assert StrategyPoll(env, start, j) == PollReply(env, pollStart, j);
    }
    PollExhaustion(env, attempts, pollStart);
    assert run.effects == asked + poll.effects;
    DelaysAppend(asked, poll.effects);
    NoDelays(asked);
  }

  /** With an empty schedule a failed refresh gives up at once: no sleep, no poll. */
  lemma EmptyScheduleGivesUpAtOnce(env: Environment, start: nat)
    requires env.loadRefreshToken(start).Resolved?
    requires LoadedProxy(ProxyReply(env, start + 1)).Resolved?
    requires env.refreshTokens(start + 2).Rejected?
    ensures Strategy(env, [], start).outcome == Rejected(LossTruthError(MessageProperty(env.refreshTokens(start + 2).error)))
    ensures |Strategy(env, [], start).effects| == 3
  {
  }

  /** The first poll that finds a token decides the strategy: that token is
      returned after the delays up to and including that poll. */
  lemma StrategyRecoversAt(env: Environment, attempts: seq<nat>, start: nat, k: nat)
    requires env.loadRefreshToken(start).Resolved?
    requires LoadedProxy(ProxyReply(env, start + 1)).Resolved?
    requires env.refreshTokens(start + 2).Rejected?
    requires k < |attempts|
    requires forall j: nat :: j < k ==> Empty(StrategyPoll(env, start, j))
    requires StrategyPoll(env, start, k).Resolved? && Truthy(StrategyPoll(env, start, k).value)
    ensures Strategy(env, attempts, start).outcome == Resolved(StrategyPoll(env, start, k).value.value)
    ensures Delays(Strategy(env, attempts, start).effects) == attempts[..k + 1]
  {
    var run := Strategy(env, attempts, start);
    var asked := run.effects[..3];
    var pollStart := start + 3;
    var poll := PollStore(env, attempts, pollStart);
    forall j: nat | j <= k ensures StrategyPoll(env, start, j) == PollReply(env, pollStart, j) {
    }
    PollStopsAt(env, attempts, pollStart, k);
    assert run.effects == asked + poll.effects;
    DelaysAppend(asked, poll.effects);
    NoDelays(asked);
  }

  /** Token lookup makes no API call. */
  lemma LookupMakesNoCall(env: Environment, attempts: seq<nat>, cache: Option<string>, start: nat)
    ensures Calls(TokenLookup(env, attempts, cache, start).effects) == []
  {
    if !Truthy(cache) && env.loadAccessToken(start).Resolved? && !Truthy(env.loadAccessToken(start).value) {
      StrategyMakesNoCall(env, attempts, start + 1);
      NoCalls([TokenStoreLoadAccess]);
      CallsAppend([TokenStoreLoadAccess], Strategy(env, attempts, start + 1).effects);
    }
  }

  /** `callApiMethod` calls the API at most twice; when it calls twice, the
      first call got the loaded proxy and the retry gets none. */
  lemma AtMostOneRetry<D>(env: Environment, attempts: seq<nat>, cache: Option<string>, start: nat, callApi: nat -> Outcome<D>)
    ensures var calls := Calls(ApiCallRun(env, attempts, cache, start, callApi).effects);
      && |calls| <= 2
      && (|calls| == 2 ==>
            LoadedProxy(ProxyReply(env, start)).Resolved?
            && calls[0].proxy == LoadedProxy(ProxyReply(env, start)).value && calls[1].proxy.None?)
  {
    match LoadedProxy(ProxyReply(env, start))
    case Rejected(_) =>
      NoCalls([ProxyStoreLoad]);
    case Resolved(proxy) =>
      var lookup := TokenLookup(env, attempts, cache, start + 1);
      LookupMakesNoCall(env, attempts, cache, start + 1);
      var tried := Attempt(lookup, proxy, start + 1, callApi);
      AttemptCallsOnce(lookup, proxy, start + 1, callApi);
      var caught := Caught(env, attempts, tried, start + 1, callApi);
      CaughtRetriesOnce(env, attempts, tried, start + 1, callApi, proxy);
      CallsAppend([ProxyStoreLoad], caught.effects);
      NoCalls([ProxyStoreLoad]);
  }

  /** The catch blocks add at most one call, without proxy, and only after an
      Unauthorized failure. */
  lemma CaughtRetriesOnce<D>(env: Environment, attempts: seq<nat>, tried: Run<D>, start: nat, callApi: nat -> Outcome<D>, proxy: Option<ApiUtils.ProxyHttp>)
    requires |Calls(tried.effects)| <= 1
    requires |Calls(tried.effects)| == 1 ==> Calls(tried.effects)[0].proxy == proxy
    ensures var calls := Calls(Caught(env, attempts, tried, start, callApi).effects);
      && |calls| <= 2
      && (|calls| == 2 ==> calls[0].proxy == proxy && calls[1].proxy.None?)
      && (|calls| > |Calls(tried.effects)| ==>
            tried.outcome.Rejected? && FirstFailure(tried.outcome.error).Reauthenticate? && calls[|calls| - 1].proxy.None?)
  {
    var caught := Caught(env, attempts, tried, start, callApi);
    if tried.outcome.Resolved? || FirstFailure(tried.outcome.error).Rethrow? {
      assert caught.effects == tried.effects;
    } else {
      var at := start + |tried.effects|;
      var run := Strategy(env, attempts, at);
      StrategyMakesNoCall(env, attempts, at);
      var again := Attempt(run, None, at, callApi);
      AttemptCallsOnce(run, None, at, callApi);
      assert caught == Prefixed(tried.effects, Retried(again));
      assert caught.effects == tried.effects + again.effects;
      CallsAppend(tried.effects, again.effects);
    }
  }

  /** Awaiting a token run that calls nothing adds at most the one call,
      with the given proxy. */
  lemma AttemptCallsOnce<D>(token: Run<string>, proxy: Option<ApiUtils.ProxyHttp>, start: nat, callApi: nat -> Outcome<D>)
    requires Calls(token.effects) == []
    ensures var calls := Calls(Attempt(token, proxy, start, callApi).effects);
      |calls| <= 1 && (|calls| == 1 ==> calls[0].proxy == proxy)
  {
    if token.outcome.Resolved? {
      var call := ApiCall(token.outcome.value, proxy);
      CallsAppend(token.effects, [call]);
      assert Calls([call]) == [call] by {
        assert [call][1..] == [];
      }
    }
  }

  /** Every failure of `callApiMethod` is a Tele2Ats2ClientError: a proxy
      error, a client error passed through, or a wrapped one. */
  lemma FailuresAreClientErrors<D>(env: Environment, attempts: seq<nat>, cache: Option<string>, start: nat, callApi: nat -> Outcome<D>)
    ensures ApiCallRun(env, attempts, cache, start, callApi).outcome.Rejected? ==>
      InstanceOf(ApiCallRun(env, attempts, cache, start, callApi).outcome.error, Tele2Ats2ClientError)
  {
    var run := ApiCallRun(env, attempts, cache, start, callApi);
    if run.outcome.Rejected? {
      assert run.outcome.error.ClientError?;
      TaxonomyInstances(run.outcome.error);
    }
  }

  /** A proxy-store failure ends `callApiMethod` before the `try` block: no
      token is looked up, nothing is called, and the failure is a proxy
      error naming the cause. */
  lemma ProxyFailureComesFirst<D>(env: Environment, attempts: seq<nat>, cache: Option<string>, start: nat, callApi: nat -> Outcome<D>)
    requires ProxyReply(env, start).Rejected?
    ensures ApiCallRun(env, attempts, cache, start, callApi)
         == Run([ProxyStoreLoad], Rejected(ClientError(ClientProxy, "Error load proxy: " + TemplateMessage(ProxyReply(env, start).error))))
    ensures InstanceOf(ApiCallRun(env, attempts, cache, start, callApi).outcome.error, Tele2Ats2ClientProxyError)
  {
    assert IsSubclass(Tele2Ats2ClientProxyError, Tele2Ats2ClientProxyError);
  }

  /** A LossTruth raised while re-authenticating is not passed through: the
      retry's catch turns it into a plain client error with the same message. */
  lemma RetryHidesLossTruth(message: string)
    ensures RetryFailure(ClientError(ClientLossTruthToken, message)) == ClientError(ClientGeneric, message)
    ensures !InstanceOf(RetryFailure(ClientError(ClientLossTruthToken, message)), Tele2Ats2ClientLossTruthTokenError)
  {
    var r := RetryFailure(ClientError(ClientLossTruthToken, message));
    TaxonomyInstances(ClientError(ClientLossTruthToken, message));
    assert r.clientKind == ClientGeneric;
    assert !IsSubclass(Tele2Ats2ClientError, Tele2Ats2ClientLossTruthTokenError) by {
      assert !IsSubclass(ErrorRoot, Tele2Ats2ClientLossTruthTokenError);
    }
  }

  /** An attempt whose token resolved calls the API once, with that token. */
  lemma AttemptCalls<D>(token: Run<string>, proxy: Option<ApiUtils.ProxyHttp>, start: nat, callApi: nat -> Outcome<D>)
    requires token.outcome.Resolved?
    ensures Attempt(token, proxy, start, callApi)
         == Run(token.effects + [ApiCall(token.outcome.value, proxy)], callApi(start + |token.effects|))
  {
  }

  /** A retry refused as Unauthorized with an empty message is rethrown as
      LossTruth whose message, as written, is just " ()". */
  lemma RetriedUnauthorized<D>(token: Run<string>, start: nat, callApi: nat -> Outcome<D>)
    requires token.outcome.Resolved? && callApi(start + |token.effects|) == Rejected(ApiError(ApiUnauthorized, ""))
    ensures Retried(Attempt(token, None, start, callApi)).outcome == Rejected(ClientError(ClientLossTruthToken, EmptyCauseMessage))
  {
    AttemptCalls(token, None, start, callApi);
    assert RetryFailure(ApiError(ApiUnauthorized, "")) == LossTruthError(Some(""));
    WrittenLossTruthShape(Some(""));
  }

  /** The outer `catch` around a call refused as Unauthorized, whose retry
      is refused as Unauthorized again, rethrows LossTruth. */
  lemma TriedTwiceUnauthorized<D>(env: Environment, attempts: seq<nat>, lookup: Run<string>, proxy: Option<ApiUtils.ProxyHttp>, start: nat, callApi: nat -> Outcome<D>)
    requires lookup.outcome.Resolved? && callApi(start + |lookup.effects|) == Rejected(ApiError(ApiUnauthorized, ""))
    requires var run := Strategy(env, attempts, start + 1 + |lookup.effects|);
      run.outcome.Resolved? && callApi(start + 1 + |lookup.effects| + |run.effects|) == Rejected(ApiError(ApiUnauthorized, ""))
    ensures Caught(env, attempts, Attempt(lookup, proxy, start, callApi), start, callApi).outcome
         == Rejected(ClientError(ClientLossTruthToken, EmptyCauseMessage))
  {
    var tried := Attempt(lookup, proxy, start, callApi);
    AttemptCalls(lookup, proxy, start, callApi);
    var at := start + |tried.effects|;
    assert at == start + 1 + |lookup.effects|;
    RetriedUnauthorized(Strategy(env, attempts, at), at, callApi);
    CaughtRetryOutcome(env, attempts, tried, start, at, callApi);
  }

  /** The retry of an Unauthorized call that is refused as Unauthorized again
      ends in LossTruth; with the API error's empty message the written
      message is " ()", with no prefix. */
  lemma TwiceUnauthorizedIsLossTruth<D>(env: Environment, attempts: seq<nat>, cache: Option<string>, start: nat, callApi: nat -> Outcome<D>)
    requires LoadedProxy(ProxyReply(env, start)).Resolved?
    requires var lookup := TokenLookup(env, attempts, cache, start + 1);
      lookup.outcome.Resolved? && callApi(start + 1 + |lookup.effects|) == Rejected(ApiError(ApiUnauthorized, ""))
    requires var lookup := TokenLookup(env, attempts, cache, start + 1);
      var run := Strategy(env, attempts, start + 2 + |lookup.effects|);
      run.outcome.Resolved? && callApi(start + 2 + |lookup.effects| + |run.effects|) == Rejected(ApiError(ApiUnauthorized, ""))
    ensures ApiCallRun(env, attempts, cache, start, callApi).outcome == Rejected(ClientError(ClientLossTruthToken, EmptyCauseMessage))
  {
    var proxy := LoadedProxy(ProxyReply(env, start)).value;
    TriedTwiceUnauthorized(env, attempts, TokenLookup(env, attempts, cache, start + 1), proxy, start + 1, callApi);
    ApiCallRunProceeds(env, attempts, cache, start, callApi);
  }

  lemma {:induction false} StrategiesAppend(a: seq<Effect>, b: seq<Effect>)
    ensures Strategies(a + b) == Strategies(a) + Strategies(b)
  {
    if a == [] {
      assert a + b == b;
    } else {
      assert (a + b)[1..] == a[1..] + b;
      StrategiesAppend(a[1..], b);
    }
  }

  lemma {:induction false} NoStrategies(effects: seq<Effect>)
    requires forall i :: 0 <= i < |effects| ==> effects[i] != TokenStoreLoadRefresh
    ensures Strategies(effects) == 0
  {
    if effects != [] {
      NoStrategies(effects[1..]);
    }
  }

  /** A single effect that is not a refresh-token read counts no run. */
  lemma OneEffect(e: Effect)
    ensures Strategies([e]) == if e == TokenStoreLoadRefresh then 1 else 0
  {
    assert [e][1..] == [];
  }

  /** A strategy run reads the refresh token exactly once, so the effects
      count it as one run. */
  lemma StrategyIsOneRun(env: Environment, attempts: seq<nat>, start: nat)
    ensures Strategies(Strategy(env, attempts, start).effects) == 1
  {
    OneEffect(TokenStoreLoadRefresh);
    var loaded := env.loadRefreshToken(start);
    if loaded.Resolved? {
      var auth := Authorize(env, loaded.value, start + 1);
      var asked := [TokenStoreLoadRefresh] + auth.effects;
      NoStrategies(auth.effects);
      StrategiesAppend([TokenStoreLoadRefresh], auth.effects);
      if auth.outcome.Resolved? {
        match auth.outcome.value
        case Ok(pair) =>
          OneEffect(TokenStoreSave(pair));
          StrategiesAppend(asked, [TokenStoreSave(pair)]);
        case Err(_) =>
          var poll := PollStore(env, attempts, start + |asked|);
          PollOnlySleepsAndReads(env, attempts, start + |asked|);
          NoStrategies(poll.effects);
          StrategiesAppend(asked, poll.effects);
      }
    }
  }

  /** From idle, a lookup leaves nothing in flight and counts exactly the
      strategy runs it logged. */
  lemma LookupCountsRuns(env: Environment, attempts: seq<nat>, s: AuthState, start: nat)
    requires !s.inFlight
    ensures !LookupState(env, attempts, s, start).inFlight
    ensures LookupState(env, attempts, s, start).runs == s.runs + Strategies(TokenLookup(env, attempts, s.cache, start).effects)
  {
    if !Truthy(s.cache) {
      OneEffect(TokenStoreLoadAccess);
      var loaded := env.loadAccessToken(start);
      if loaded.Resolved? && !Truthy(loaded.value) {
        var run := Strategy(env, attempts, start + 1);
        StrategiesAppend([TokenStoreLoadAccess], run.effects);
        StrategyIsOneRun(env, attempts, start + 1);
      }
    }
  }

  /** A lookup that resolves leaves its token cached. */
  lemma LookupCachesToken(env: Environment, attempts: seq<nat>, s: AuthState, start: nat)
    requires TokenLookup(env, attempts, s.cache, start).outcome.Resolved?
    ensures LookupState(env, attempts, s, start).cache == Some(TokenLookup(env, attempts, s.cache, start).outcome.value)
  {
  }

  /** A resolved attempt ends with its call, made with the token it awaited. */
  lemma AttemptEndsWithCall<D>(token: Run<string>, proxy: Option<ApiUtils.ProxyHttp>, start: nat, callApi: nat -> Outcome<D>)
    requires Attempt(token, proxy, start, callApi).outcome.Resolved?
    ensures var r := Attempt(token, proxy, start, callApi);
      && token.outcome.Resolved?
      && |r.effects| > 0 && r.effects[|r.effects| - 1] == ApiCall(token.outcome.value, proxy)
  {
  }

  /** The call an attempt adds is not a strategy run. */
  lemma AttemptCountsRuns<D>(token: Run<string>, proxy: Option<ApiUtils.ProxyHttp>, start: nat, callApi: nat -> Outcome<D>)
    ensures Strategies(Attempt(token, proxy, start, callApi).effects) == Strategies(token.effects)
  {
    if token.outcome.Resolved? {
      StrategiesAppend(token.effects, [ApiCall(token.outcome.value, proxy)]);
      OneEffect(ApiCall(token.outcome.value, proxy));
    }
  }

  /** The last effect of a run extended by a non-empty one is the extension's last. */
  lemma LastOfAppend(a: seq<Effect>, b: seq<Effect>)
    requires |b| > 0
    ensures (a + b)[|a + b| - 1] == b[|b| - 1]
  {
  }

  /** A re-authenticating `catch` that succeeds ends with the retried call,
      made with the token the strategy run cached. */
  lemma ReauthenticatedCachesCallToken<D>(env: Environment, attempts: seq<nat>, s: AuthState, tried: Run<D>, start: nat, callApi: nat -> Outcome<D>)
    requires tried.outcome.Rejected? && FirstFailure(tried.outcome.error).Reauthenticate?
    requires Caught(env, attempts, tried, start, callApi).outcome.Resolved?
    ensures var r := Caught(env, attempts, tried, start, callApi);
      && |r.effects| > 0 && r.effects[|r.effects| - 1].ApiCall?
      && CaughtState(env, attempts, s, tried, start).cache == Some(r.effects[|r.effects| - 1].accessToken)
  {
    var at := start + |tried.effects|;
    var run := Strategy(env, attempts, at);
    var again := Attempt(run, None, at, callApi);
    CaughtReauthenticates(env, attempts, tried, start, callApi);
    assert again.outcome.Resolved?;
    AttemptEndsWithCall(run, None, at, callApi);
    LastOfAppend(tried.effects, again.effects);
    assert CaughtState(env, attempts, s, tried, start) == Awaited(s, run.outcome);
  }

  /** When the outer `catch` succeeds, its last effect is the call that
      succeeded and the state caches that call's token, provided a
      successful `try` already did. */
  lemma CaughtCachesCallToken<D>(env: Environment, attempts: seq<nat>, s: AuthState, tried: Run<D>, start: nat, callApi: nat -> Outcome<D>)
    requires Caught(env, attempts, tried, start, callApi).outcome.Resolved?
    requires tried.outcome.Resolved? ==>
      && |tried.effects| > 0 && tried.effects[|tried.effects| - 1].ApiCall?
      && s.cache == Some(tried.effects[|tried.effects| - 1].accessToken)
    ensures var r := Caught(env, attempts, tried, start, callApi);
      && |r.effects| > 0 && r.effects[|r.effects| - 1].ApiCall?
      && CaughtState(env, attempts, s, tried, start).cache == Some(r.effects[|r.effects| - 1].accessToken)
  {
    if tried.outcome.Rejected? {
      assert FirstFailure(tried.outcome.error).Reauthenticate?;
      ReauthenticatedCachesCallToken(env, attempts, s, tried, start, callApi);
    }
  }

  /** From idle, the outer `catch` leaves nothing in flight and counts
      exactly the strategy runs it adds to the `try` block's effects. */
  lemma CaughtCountsRuns<D>(env: Environment, attempts: seq<nat>, s: AuthState, tried: Run<D>, start: nat, callApi: nat -> Outcome<D>)
    requires !s.inFlight
    ensures !CaughtState(env, attempts, s, tried, start).inFlight
    ensures CaughtState(env, attempts, s, tried, start).runs + Strategies(tried.effects)
         == s.runs + Strategies(Caught(env, attempts, tried, start, callApi).effects)
  {
    if tried.outcome.Rejected? && FirstFailure(tried.outcome.error).Reauthenticate? {
      var at := start + |tried.effects|;
      var run := Strategy(env, attempts, at);
      var again := Attempt(run, None, at, callApi);
      CaughtReauthenticates(env, attempts, tried, start, callApi);
      StrategyIsOneRun(env, attempts, at);
      AttemptCountsRuns(run, None, at, callApi);
      StrategiesAppend(tried.effects, again.effects);
    }
  }

  /** After a successful `callApiMethod` the cache holds the token of the
      call that succeeded, the last effect, so the next call reuses it. */
  lemma SuccessCachesCallToken<D>(env: Environment, attempts: seq<nat>, s: AuthState, start: nat, callApi: nat -> Outcome<D>)
    requires ApiCallRun(env, attempts, s.cache, start, callApi).outcome.Resolved?
    ensures var run := ApiCallRun(env, attempts, s.cache, start, callApi);
      && run.effects[|run.effects| - 1].ApiCall?
      && ApiCallState(env, attempts, s, start, callApi).cache == Some(run.effects[|run.effects| - 1].accessToken)
  {
    var proxy := LoadedProxy(ProxyReply(env, start)).value;
    var lookup := TokenLookup(env, attempts, s.cache, start + 1);
    var tried := Attempt(lookup, proxy, start + 1, callApi);
    if tried.outcome.Resolved? {
      AttemptEndsWithCall(lookup, proxy, start + 1, callApi);
      LookupCachesToken(env, attempts, s, start + 1);
    }
    CaughtCachesCallToken(env, attempts, LookupState(env, attempts, s, start + 1), tried, start + 1, callApi);
  }

  /** A cached token serves the call directly: the proxy is loaded, the API
      is called once with the cached token, and the state is unchanged. */
  lemma CachedTokenServes<D>(env: Environment, attempts: seq<nat>, s: AuthState, start: nat, callApi: nat -> Outcome<D>)
    requires Truthy(s.cache) && ProxyReply(env, start).Resolved? && callApi(start + 1).Resolved?
    ensures ApiCallRun(env, attempts, s.cache, start, callApi)
         == Run([ProxyStoreLoad, ApiCall(s.cache.value, ProxyStores.ProxyOf(ProxyReply(env, start).value))], callApi(start + 1))
    ensures ApiCallState(env, attempts, s, start, callApi) == s
  {
  }

  /** From idle, `callApiMethod` leaves nothing in flight and counts exactly
      the strategy runs it logged: at most one by the lookup and one by the
      retry. */
  lemma ApiCallCountsRuns<D>(env: Environment, attempts: seq<nat>, s: AuthState, start: nat, callApi: nat -> Outcome<D>)
    requires !s.inFlight
    ensures !ApiCallState(env, attempts, s, start, callApi).inFlight
    ensures ApiCallState(env, attempts, s, start, callApi).runs == s.runs + Strategies(ApiCallRun(env, attempts, s.cache, start, callApi).effects)
  {
    OneEffect(ProxyStoreLoad);
    if LoadedProxy(ProxyReply(env, start)).Resolved? {
      var proxy := LoadedProxy(ProxyReply(env, start)).value;
      var lookup := TokenLookup(env, attempts, s.cache, start + 1);
      var tried := Attempt(lookup, proxy, start + 1, callApi);
      LookupCountsRuns(env, attempts, s, start + 1);
      AttemptCountsRuns(lookup, proxy, start + 1, callApi);
      CaughtCountsRuns(env, attempts, LookupState(env, attempts, s, start + 1), tried, start + 1, callApi);
      StrategiesAppend([ProxyStoreLoad], Caught(env, attempts, tried, start + 1, callApi).effects);
    }
  }

  /** Tele2Ats2ClientAuth: the cached access token, the in-flight marker,
      and a count of the strategy runs started, which identifies the run a
      caller started or joined. */
  class Coordinator {
    const env: Environment
    const attempts: seq<nat>
    /** `#tokenStoreAccessToken`. */
    var cache: Option<string>
    /** `#tokenStoreRunnedStrategy !== null`. */
    var inFlight: bool
    /** How many strategy runs have been started. */
    var runs: nat
    /** Every effect issued so far. */
    var trace: seq<Effect>

    /** The fields the methods update, as one value. */
    function State(): AuthState
      reads this
    {
      AuthState(cache, inFlight, runs)
    }

    /** A run in flight is the latest one started. */
    ghost predicate Valid()
      reads this
    {
      inFlight ==> runs > 0
    }

    /** `constructor(props)`; `configured` is `strategyConfig?.attempts`. */
    constructor(env: Environment, configured: Option<seq<nat>>)
      ensures Valid()
      ensures this.env == env && attempts == Schedule(configured)
      ensures cache == None && !inFlight && runs == 0 && trace == []
    {
      this.env := env;
      attempts := Schedule(configured);
      cache := None;
      inFlight := false;
      runs := 0;
      trace := [];
    }

    /** `#loadProxy()`. */
    method LoadProxy() returns (r: Outcome<Option<ApiUtils.ProxyHttp>>)
      modifies this`trace
      ensures r == LoadedProxy(ProxyReply(env, |old(trace)|))
      ensures trace == old(trace) + [ProxyStoreLoad]
    {
      r := LoadedProxy(ProxyReply(env, |trace|));
      trace := trace + [ProxyStoreLoad];
    }

    /** `#authorization({ refreshToken })`. */
    method Authorization(refreshToken: Option<string>) returns (r: Outcome<MaybeAuth>)
      modifies this`trace
      ensures r == Authorize(env, refreshToken, |old(trace)|).outcome
      ensures trace == old(trace) + Authorize(env, refreshToken, |old(trace)|).effects
    {
      var proxy := LoadProxy();
      if proxy.Rejected? {
        return Rejected(proxy.error);
      }
      var reply := env.refreshTokens(|trace|);
      trace := trace + [RefreshTokensRequest(refreshToken, proxy.value)];
      match reply
      case Resolved(pair) =>
        r := Resolved(Ok(pair));
      case Rejected(err) =>
        r := Resolved(Err(err));
    }

    /** `#strategyAuth()`: one refresh, then the store is polled once per
      delay of the schedule. */
    method StrategyAuth() returns (r: Outcome<string>)
      modifies this`cache, this`trace
      ensures r == Strategy(env, attempts, |old(trace)|).outcome
      ensures trace == old(trace) + Strategy(env, attempts, |old(trace)|).effects
      ensures cache == if r.Resolved? then Some(r.value) else old(cache)
    {
      var refreshReply := env.loadRefreshToken(|trace|);
      trace := trace + [TokenStoreLoadRefresh];
      if refreshReply.Rejected? {
        return Rejected(refreshReply.error);
      }
      ghost var auth := Authorize(env, refreshReply.value, |old(trace)| + 1);
      var maybeAuth := Authorization(refreshReply.value);
      Regroup(old(trace), [TokenStoreLoadRefresh], auth.effects);
      ghost var asked := [TokenStoreLoadRefresh] + auth.effects;
      if maybeAuth.Rejected? {
        return Rejected(maybeAuth.error);
      }
      match maybeAuth.value
      case Ok(pair) =>
        var saved := env.saveTokens(|trace|);
        trace := trace + [TokenStoreSave(pair)];
        Regroup(old(trace), asked, [TokenStoreSave(pair)]);
        if saved.Rejected? {
          return Rejected(saved.error);
        }
        cache := Some(pair.accessToken);
        return Resolved(pair.accessToken);
      case Err(err) =>
        var status := PollSchedule();
        Regroup(old(trace), asked, PollStore(env, attempts, |old(trace)| + |asked|).effects);
        match status
        case Recovered(token) =>
          r := Resolved(token);
        case StoreFailed(e) =>
          r := Rejected(e);
        case Exhausted =>
          r := Rejected(LossTruthError(MessageProperty(err)));
    }

    /** The `for (const delay of this.#attempts)` loop of `#strategyAuth()`:
      sleep, poll the store, and stop at the first token or store failure. */
    method PollSchedule() returns (status: PollStatus)
      modifies this`cache, this`trace
      ensures status == PollStore(env, attempts, |old(trace)|).status
      ensures trace == old(trace) + PollStore(env, attempts, |old(trace)|).effects
      ensures cache == if status.Recovered? then Some(status.token) else old(cache)
    {
      ghost var start := |trace|;
      ghost var done: seq<Effect> := [];
      assert attempts[0..] == attempts;
      for i := 0 to |attempts|
        invariant trace == old(trace) + done && |done| == 2 * i
        invariant cache == old(cache)
        invariant PollStore(env, attempts, start)
               == Poll(PollStore(env, attempts[i..], start + 2 * i).status, done + PollStore(env, attempts[i..], start + 2 * i).effects)
      {
        ghost var rest := PollStore(env, attempts[i + 1..], start + 2 * i + 2);
        ghost var head := [Sleep(attempts[i]), TokenStoreLoadAccess];
        assert attempts[i..][1..] == attempts[i + 1..];
        trace := trace + [Sleep(attempts[i])];
        var loaded := env.loadAccessToken(|trace|);
        trace := trace + [TokenStoreLoadAccess];
        Regroup(old(trace) + done, [Sleep(attempts[i])], [TokenStoreLoadAccess]);
        assert [Sleep(attempts[i])] + [TokenStoreLoadAccess] == head;
        Regroup(old(trace), done, head);
        if loaded.Rejected? {
          assert PollStore(env, attempts[i..], start + 2 * i) == Poll(StoreFailed(loaded.error), head);
          return StoreFailed(loaded.error);
        }
        if Truthy(loaded.value) {
          assert PollStore(env, attempts[i..], start + 2 * i) == Poll(Recovered(loaded.value.value), head);
          cache := loaded.value;
          return Recovered(loaded.value.value);
        }
        assert PollStore(env, attempts[i..], start + 2 * i) == Poll(rest.status, head + rest.effects);
        Regroup(done, head, rest.effects);
        done := done + head;
      }
      assert attempts[|attempts|..] == [];
      status := Exhausted;
    }

    /** `runStrategyAuth()`: join the run in flight, or clear the cache and
      start a new one. Returns the run's handle. */
    method RunStrategyAuth() returns (h: nat)
      requires Valid()
      modifies this`cache, this`inFlight, this`runs
      ensures Valid() && inFlight && h == runs - 1
      ensures old(inFlight) ==> runs == old(runs) && cache == old(cache)
      ensures !old(inFlight) ==> runs == old(runs) + 1 && cache == None
    {
      if inFlight {
        return runs - 1;
      }
      cache := None;
      inFlight := true;
      runs := runs + 1;
      h := runs - 1;
    }

    /** The run in flight settles with outcome `r`, and the marker is cleared
      whether it resolved or rejected (the `.finally`). */
    method Settle() returns (r: Outcome<string>)
      requires Valid() && inFlight
      modifies this`cache, this`inFlight, this`trace
      ensures Valid() && !inFlight
      ensures r == Strategy(env, attempts, |old(trace)|).outcome
      ensures trace == old(trace) + Strategy(env, attempts, |old(trace)|).effects
      ensures cache == if r.Resolved? then Some(r.value) else old(cache)
    {
      r := StrategyAuth();
      inFlight := false;
    }

    /** `await this.runStrategyAuth()`: start or join, then wait for it. */
    method AwaitStrategyAuth() returns (r: Outcome<string>)
      requires Valid()
      modifies this`cache, this`inFlight, this`runs, this`trace
      ensures Valid() && !inFlight
      ensures r == Strategy(env, attempts, |old(trace)|).outcome
      ensures trace == old(trace) + Strategy(env, attempts, |old(trace)|).effects
      ensures runs == old(runs) + (if old(inFlight) then 0 else 1)
      ensures cache == if r.Resolved? then Some(r.value) else if old(inFlight) then old(cache) else None
      ensures State() == Awaited(old(State()), r)
    {
      var h := RunStrategyAuth();
      r := Settle();
    }

    /** `#getAccessToken()`. */
    method GetAccessToken() returns (r: Outcome<string>)
      requires Valid()
      modifies this`cache, this`inFlight, this`runs, this`trace
      ensures Valid()
      ensures r == TokenLookup(env, attempts, old(cache), |old(trace)|).outcome
      ensures trace == old(trace) + TokenLookup(env, attempts, old(cache), |old(trace)|).effects
      // a cached token: the store is not touched and nothing changes
      ensures Truthy(old(cache)) ==> cache == old(cache) && inFlight == old(inFlight) && runs == old(runs)
      // a strategy run is started or joined only when the store is empty
      ensures runs != old(runs) || inFlight != old(inFlight) ==>
        !Truthy(old(cache)) && Empty(env.loadAccessToken(|old(trace)|)) && !inFlight
      ensures runs == old(runs) || runs == old(runs) + 1
      // a token found in the store or by the strategy is cached
      ensures r.Resolved? ==> cache == Some(r.value)
      ensures State() == LookupState(env, attempts, old(State()), |old(trace)|)
    {
      if Truthy(cache) {
        return Resolved(cache.value);
      }
      var loaded := env.loadAccessToken(|trace|);
      trace := trace + [TokenStoreLoadAccess];
      if loaded.Rejected? {
        return Rejected(loaded.error);
      }
      if Truthy(loaded.value) {
        cache := loaded.value;
        return Resolved(loaded.value.value);
      }
      ghost var at := |trace|;
      r := AwaitStrategyAuth();
      Regroup(old(trace), [TokenStoreLoadAccess], Strategy(env, attempts, at).effects);
    }

    /** The `try` block of `callApiMethod`: get a token, then call with the proxy. */
    method TryCall<D>(proxy: Option<ApiUtils.ProxyHttp>, callApi: nat -> Outcome<D>) returns (r: Outcome<D>)
      requires Valid()
      modifies this`cache, this`inFlight, this`runs, this`trace
      ensures Valid()
      ensures r == Attempt(TokenLookup(env, attempts, old(cache), |old(trace)|), proxy, |old(trace)|, callApi).outcome
      ensures trace == old(trace) + Attempt(TokenLookup(env, attempts, old(cache), |old(trace)|), proxy, |old(trace)|, callApi).effects
      ensures State() == LookupState(env, attempts, old(State()), |old(trace)|)
    {
      ghost var lookup := TokenLookup(env, attempts, cache, |trace|);
      var accessToken := GetAccessToken();
      if accessToken.Rejected? {
        return Rejected(accessToken.error);
      }
      r := callApi(|trace|);
      trace := trace + [ApiCall(accessToken.value, proxy)];
      Regroup(old(trace), lookup.effects, [ApiCall(accessToken.value, proxy)]);
    }

    /** The retry in the outer `catch`: await a strategy run, then call
      without a proxy. */
    method RetryCall<D>(callApi: nat -> Outcome<D>) returns (r: Outcome<D>)
      requires Valid()
      modifies this`cache, this`inFlight, this`runs, this`trace
      ensures Valid()
      ensures r == Attempt(Strategy(env, attempts, |old(trace)|), None, |old(trace)|, callApi).outcome
      ensures trace == old(trace) + Attempt(Strategy(env, attempts, |old(trace)|), None, |old(trace)|, callApi).effects
      ensures State() == Awaited(old(State()), Strategy(env, attempts, |old(trace)|).outcome)
    {
      ghost var run := Strategy(env, attempts, |trace|);
      var accessToken := AwaitStrategyAuth();
      if accessToken.Rejected? {
        return Rejected(accessToken.error);
      }
      r := callApi(|trace|);
      trace := trace + [ApiCall(accessToken.value, None)];
      Regroup(old(trace), run.effects, [ApiCall(accessToken.value, None)]);
    }

    /** The `try` block and the outer `catch` of `callApiMethod`, once the
      proxy is loaded. */
    method TryAndCatch<D>(proxy: Option<ApiUtils.ProxyHttp>, callApi: nat -> Outcome<D>) returns (r: Outcome<D>)
      requires Valid()
      modifies this`cache, this`inFlight, this`runs, this`trace
      ensures Valid()
      ensures var tried := Attempt(TokenLookup(env, attempts, old(cache), |old(trace)|), proxy, |old(trace)|, callApi);
        && r == Caught(env, attempts, tried, |old(trace)|, callApi).outcome
        && trace == old(trace) + Caught(env, attempts, tried, |old(trace)|, callApi).effects
        && State() == CaughtState(env, attempts, LookupState(env, attempts, old(State()), |old(trace)|), tried, |old(trace)|)
    {
      ghost var tried := Attempt(TokenLookup(env, attempts, cache, |trace|), proxy, |trace|, callApi);
      var first := TryCall(proxy, callApi);
      if first.Resolved? {
        return first;
      }
      var recovery := FirstFailure(first.error);
      if recovery.Rethrow? {
        return Rejected(recovery.error);
      }
      ghost var at := |trace|;
      assert at == |old(trace)| + |tried.effects|;
      CaughtReauthenticates(env, attempts, tried, |old(trace)|, callApi);
      ghost var again := Attempt(Strategy(env, attempts, at), None, at, callApi);
      var second := RetryCall(callApi);
      r := if second.Resolved? then second else Rejected(RetryFailure(second.error));
      Regroup(old(trace), tried.effects, again.effects);
    }

    /** `callApiMethod(callApi)`. */
    method CallApiMethod<D>(callApi: nat -> Outcome<D>) returns (r: Outcome<D>)
      requires Valid()
      modifies this`cache, this`inFlight, this`runs, this`trace
      ensures Valid()
      ensures r == ApiCallRun(env, attempts, old(cache), |old(trace)|, callApi).outcome
      ensures trace == old(trace) + ApiCallRun(env, attempts, old(cache), |old(trace)|, callApi).effects
      ensures State() == ApiCallState(env, attempts, old(State()), |old(trace)|, callApi)
    {
      var proxy := LoadProxy();
      if proxy.Rejected? {
        return Rejected(proxy.error);
      }
      ghost var at := |trace|;
      r := TryAndCatch(proxy.value, callApi);
      ghost var caught := Caught(env, attempts, Attempt(TokenLookup(env, attempts, old(cache), at), proxy.value, at, callApi), at, callApi);
      Regroup(old(trace), [ProxyStoreLoad], caught.effects);
    }

    /** `forcedAuth()`: run the strategy (or join the run in flight) and
      wait for it, discarding the token. */
    method ForcedAuth() returns (r: Outcome<()>)
      requires Valid()
      modifies this`cache, this`inFlight, this`runs, this`trace
      ensures Valid() && !inFlight
      ensures var run := Strategy(env, attempts, |old(trace)|);
        && trace == old(trace) + run.effects
        && (run.outcome.Resolved? ==> r == Resolved(()))
        && (run.outcome.Rejected? ==> r == Rejected(run.outcome.error))
        && State() == Awaited(old(State()), run.outcome)
    {
      var token := AwaitStrategyAuth();
      r := if token.Resolved? then Resolved(()) else Rejected(token.error);
    }
  }

  /** Two callers that ask for re-authentication before it settles share one
      run: they get the same handle, one run is counted, and the strategy's
      effects (one refresh request) appear once. */
  method SharedRefresh(c: Coordinator) returns (first: nat, second: nat)
    requires c.Valid() && !c.inFlight
    modifies c
    ensures c.Valid() && !c.inFlight && first == second
    ensures c.runs == old(c.runs) + 1
    ensures c.trace == old(c.trace) + Strategy(c.env, c.attempts, |old(c.trace)|).effects
  {
    first := c.RunStrategyAuth();
    second := c.RunStrategyAuth();
    var outcome := c.Settle();
  }
}
