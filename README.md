# tele2-ats2-sdk, modelled in Dafny

This project models the core of the Tele2 ATS2 SDK, a JavaScript client for
the Tele2 ATS2 telephony API, and proves properties of that model. It covers:

- **Auth coordinator** (`Client`, client.js). `Tele2Ats2ClientAuth` keeps a
  cached access token and an in-flight marker for its single re-authentication
  run. Around them sit:
  - the lookup order cache → token store → strategy;
  - the strategy itself: one refresh request, then polling the store once per
    delay of the schedule, then the LossTruth error;
  - the error policy of `callApiMethod`: pass through, wrap, or
    re-authenticate and retry once without the proxy.

  The class `Client.Coordinator` holds the fields `cache`, `inFlight`, `runs`
  and `trace`.
  - The token store, the proxy store, the refresh endpoint and the wrapped API
    call are reply oracles. Each is indexed by the position of the request in
    `trace`, the log of every effect issued so far; sleeps are logged as
    `Sleep(ms)` effects.
  - Every method is proved against a specification function of the old state
    (`TokenLookup`, `Strategy`, `ApiCallRun`). The lemmas about those
    functions carry the promises: one refresh request per run, delays slept in
    schedule order, at most one retry, and which error ends up thrown.
  - Single-flight is modelled as explicit start/join (`RunStrategyAuth`) and
    settle (`Settle`) transitions.
- **Error classifier** (`Decorators`, decorators.js): the first rule of an
  ordered list that matches the HTTP response decides the thrown API error.
- **Endpoints** (`ApiMethods`, api-methods.js; `ApiRecordings`,
  api-recordings.js). Each endpoint is modelled by its rule table, the request
  it sends (method, path, query, headers) and the result it returns.
  - `callRecordsInfo` builds its query by successive `searchParams.set`
    calls (`SearchParams`).
  - The listing's entries gain a link to their audio file.
- **Token stores**:
  - `FileTokenStores`: the file as abstract state, with the
    `startRefreshToken` arbitration;
  - `MemoryTokenStores`: two fields.
- **Helpers**:
  - the client error constructor's message derivation (`ClientExceptions`);
  - the error class hierarchy behind `instanceof` (`Errors`);
  - `Tele2Ats2File.toBuffer`, a loop over the stream's events (`ApiFile`);
  - `StaticProxyStore` (`ProxyStores`);
  - `proxyHttpToAxiosProxy` (`ApiUtils`);
  - the JavaScript value rules used throughout (`Js`: truthiness,
    `String(x)`, `toUpperCase` on ASCII).

Where the code departs from what its names and comments intend, the model
follows the code:

- `#getAccessToken` does not join a refresh in flight before reading the
  store. The cache is cleared when a run starts, so a lookup during the run
  reads the store first and only then joins (`Client.TokenLookup`).

The places where the code cannot do what it evidently means are listed
under "## Findings". The model follows the code there too: every member
that models an operation uses the code as written. Each defect also has a
corrected definition beside it, with the intended property proved about it,
which nothing else in the model uses.

## Model

| member | source | states |
|---|---|---|
| Client.Schedule | src/tele2-ats2-client/client.js:28 | the default delays `[1000, 3000, 5000]` replace only an absent schedule; a configured one, even empty, is kept |
| Client.Coordinator.constructor | src/tele2-ats2-client/client.js:25-29 | a new coordinator has no cached token, no run in flight, an empty log and the configured or default schedule |
| Client.TokenLookup | src/tele2-ats2-client/client.js:38-50 | a cached token is returned without any effect; otherwise the store is read first: a truthy store token is the result, a store failure propagates, and an empty store gives the strategy's outcome after its effects |
| Client.LookupState | src/tele2-ats2-client/client.js:38-50 | a cached token leaves the state as it is; a lookup starts at most one strategy run |
| Client.LookupCountsRuns | src/tele2-ats2-client/client.js:38-66 | from idle, a lookup leaves nothing in flight and counts exactly the strategy runs its effects hold |
| Client.Coordinator.GetAccessToken | src/tele2-ats2-client/client.js:38-50 | the result and log are those of the cache → store → strategy lookup; a cached token touches nothing; a run is started or joined only when cache and store are empty; a token found is cached; the new state is the lookup's state |
| Client.LookupMakesNoCall | src/tele2-ats2-client/client.js:38-50 | looking up a token never calls the API |
| Client.Coordinator.RunStrategyAuth | src/tele2-ats2-client/client.js:56-66 | with a run in flight it returns that run's handle and changes nothing; otherwise it clears the cache, marks a run in flight and starts a new one |
| Client.Coordinator.Settle | src/tele2-ats2-client/client.js:62-64 | the run in flight settles with the strategy's outcome and effects, and the marker is cleared whether it resolved or rejected |
| Client.Awaited | src/tele2-ats2-client/client.js:56-66 | after awaiting a run nothing is in flight, a new run is counted only if none was in flight, a resolved token is cached, and a failed run started from idle leaves the cache cleared |
| Client.Coordinator.AwaitStrategyAuth | src/tele2-ats2-client/client.js:56-66 | awaiting `runStrategyAuth()` runs the strategy once, counts a new run only if none was in flight, and leaves nothing in flight |
| Client.SharedRefresh | src/tele2-ats2-client/client.js:56-66 | two callers asking before the run settles share one handle, one counted run and one strategy's effects |
| Client.Strategy | src/tele2-ats2-client/client.js:79-104 | a strategy run always begins by reading the refresh token; a schedule that runs out throws `LossTruthError` of the refresh failure's message, with the message as written |
| Client.StrategyIsOneRun | src/tele2-ats2-client/client.js:79-104 | a strategy run reads the refresh token exactly once, so its effects count as one run |
| Client.Authorize | src/tele2-ats2-client/client.js:110-120 | the proxy is loaded first; only a proxy failure rejects, with a proxy client error and no request; otherwise exactly one refresh request follows |
| Client.PollStore | src/tele2-ats2-client/client.js:93-101 | only a truthy token ends the schedule as recovered |
| Client.Coordinator.StrategyAuth | src/tele2-ats2-client/client.js:79-104 | the outcome, the effects and the cache update are those of the strategy specification |
| Client.Coordinator.PollSchedule | src/tele2-ats2-client/client.js:93-101 | the loop sleeps and polls as the schedule specification says, and caches the token it recovers |
| Client.Coordinator.Authorization | src/tele2-ats2-client/client.js:110-120 | the proxy is loaded first and its failure escapes; the refresh's success and failure both resolve, as `{ ok }` and `{ err }` |
| Client.StrategyMakesNoCall | src/tele2-ats2-client/client.js:79-104 | the strategy never calls the API |
| Client.StrategyRefreshesOnce | src/tele2-ats2-client/client.js:79-104 | a strategy run sends at most one refresh request, as its third effect |
| Client.RefreshSuccessSaves | src/tele2-ats2-client/client.js:86-91 | a successful refresh saves the new pair and returns its access token, or the save's failure, with no sleep and no poll |
| Client.PollOnlySleepsAndReads | src/tele2-ats2-client/client.js:93-101 | polling only sleeps and reads the store |
| Client.PollRunsOut | src/tele2-ats2-client/client.js:93-103 | when every poll finds nothing the schedule runs out after sleeping every delay in order |
| Client.PollEndsEarly | src/tele2-ats2-client/client.js:93-101 | a poll that finds a token or fails keeps the schedule from running out |
| Client.PollExhaustion | src/tele2-ats2-client/client.js:93-103 | the schedule runs out exactly when every poll finds nothing, and then every delay was slept in order |
| Client.PollStopsAt | src/tele2-ats2-client/client.js:93-101 | the first poll that finds a token or fails ends polling with that result, after the delays up to that poll |
| Client.StrategyGivesUp | src/tele2-ats2-client/client.js:93-103 | a failed refresh and an empty store throughout end in LossTruth with the written message " (" + the refresh failure's message + ")", after every delay |
| Client.EmptyScheduleGivesUpAtOnce | src/tele2-ats2-client/client.js:93-103 | with an empty schedule a failed refresh gives up at once, without sleeping or polling, with the written LossTruth message " (" + the refresh failure's message + ")" |
| Client.StrategyRecoversAt | src/tele2-ats2-client/client.js:93-101 | the first poll that finds a token decides the strategy's result, after the delays up to and including that poll |
| Client.WrittenLossTruthShape | src/tele2-ats2-client/client.js:159-163 | as written, the condition is never empty, so the LossTruth message is `" (" + msg + ")"` for every msg, and " ()" for an empty one |
| Client.LossTruthDropsPrefix | src/tele2-ats2-client/client.js:159-163 | as written, the "Maybe all tokens are expired?" text never starts the message, which never equals the intended one; an absent cause shows as " (undefined)" |
| Client.LossTruthKeepsPrefix | src/tele2-ats2-client/client.js:159-163 | as intended, the message starts with "Maybe all tokens are expired?", followed by " (" + msg + ")" only for a non-empty msg |
| Client.LossTruthError | src/tele2-ats2-client/client.js:159-163 | the thrown error is a LossTruth client error whose message, as written, is " (" + msg + ")" with no prefix |
| Client.LoadedProxy | src/tele2-ats2-client/client.js:165-174 | a resolved reply gives its `proxy`, none for a null reply; a failure gives a proxy client error "Error load proxy: " + the cause's message |
| Client.Coordinator.LoadProxy | src/tele2-ats2-client/client.js:165-174 | the store's `proxy`, none for a null reply, or a proxy error "Error load proxy: " + the cause's message |
| Client.Coordinator.TryCall | src/tele2-ats2-client/client.js:133-135 | the `try` block: a token lookup, then one call with the loaded proxy; the new state is the lookup's state |
| Client.Coordinator.RetryCall | src/tele2-ats2-client/client.js:145-147 | the retry: one strategy run awaited, then one call without proxy; the new state is the awaited run's state |
| Client.Coordinator.TryAndCatch | src/tele2-ats2-client/client.js:133-155 | the `try` block and its `catch` give the outcome, effects and new state of the catch specification |
| Client.Coordinator.CallApiMethod | src/tele2-ats2-client/client.js:131-156 | the outcome, effects and new state are those of the `callApiMethod` specification |
| Client.Caught | src/tele2-ats2-client/client.js:136-155 | a successful `try` is returned unchanged; whatever the catch blocks rethrow is a client error |
| Client.CaughtState | src/tele2-ats2-client/client.js:136-147 | only re-authentication changes the state |
| Client.CaughtCountsRuns | src/tele2-ats2-client/client.js:136-147 | from idle, the catch blocks leave nothing in flight and count exactly the strategy runs they add |
| Client.CaughtCachesCallToken | src/tele2-ats2-client/client.js:134-147 | a successful catch ends with the call that succeeded, whose token is cached |
| Client.ReauthenticatedCachesCallToken | src/tele2-ats2-client/client.js:145-147 | a successful retry ends with its call, made with the token the strategy run cached |
| Client.ApiCallRun | src/tele2-ats2-client/client.js:131-156 | the proxy is loaded before anything else, and every failure is a client error |
| Client.ApiCallState | src/tele2-ats2-client/client.js:131-156 | a proxy failure leaves the state as it is; at most two strategy runs are started, one by the lookup and one by the retry |
| Client.ApiCallCountsRuns | src/tele2-ats2-client/client.js:131-156 | from idle, `callApiMethod` leaves nothing in flight and counts exactly the strategy runs its effects hold |
| Client.SuccessCachesCallToken | src/tele2-ats2-client/client.js:131-156 | after a successful `callApiMethod` the last effect is the call that succeeded, and its token is cached for the next call |
| Client.CachedTokenServes | src/tele2-ats2-client/client.js:39-40 | with a cached token, `callApiMethod` loads the proxy and calls the API once with that token, changing no state |
| Client.FirstFailure | src/tele2-ats2-client/client.js:136-143 | client errors pass unchanged; only Unauthorized re-authenticates; anything else becomes a client error with the same message |
| Client.RetryFailure | src/tele2-ats2-client/client.js:148-154 | a second Unauthorized becomes LossTruth with the written message " (" + its message + ")"; every other retry failure becomes a plain client error |
| Client.CatchesByClass | src/tele2-ats2-client/client.js:136-154 | the two catch blocks in terms of `instanceof`: Unauthorized is the only re-authentication and the only LossTruth, and whatever is rethrown is a client error |
| Client.CaughtRetriesOnce | src/tele2-ats2-client/client.js:136-155 | the catch blocks add at most one call, without proxy, and only after an Unauthorized failure |
| Client.AtMostOneRetry | src/tele2-ats2-client/client.js:131-156 | `callApiMethod` calls the API at most twice; a second call follows a first one made with the loaded proxy and gets none |
| Client.AttemptCallsOnce | src/tele2-ats2-client/client.js:134-135 | awaiting a token and calling adds exactly one call, with the given proxy, and only if the token resolved |
| Client.FailuresAreClientErrors | src/tele2-ats2-client/client.js:131-156 | every failure of `callApiMethod` is a Tele2Ats2ClientError |
| Client.ProxyFailureComesFirst | src/tele2-ats2-client/client.js:132 | a proxy-store failure ends `callApiMethod` before any lookup or call, with the proxy error |
| Client.RetryHidesLossTruth | src/tele2-ats2-client/client.js:148-153 | a LossTruth raised by the forced re-authentication is rethrown as a plain client error with the same message |
| Client.RetriedUnauthorized | src/tele2-ats2-client/client.js:147-150 | a retry refused as Unauthorized with an empty message is rethrown as LossTruth with the written message " ()" |
| Client.TriedTwiceUnauthorized | src/tele2-ats2-client/client.js:134-150 | the catch blocks turn an Unauthorized call followed by an Unauthorized retry, both with an empty message, into LossTruth with the written message " ()" |
| Client.TwiceUnauthorizedIsLossTruth | src/tele2-ats2-client/client.js:145-151 | an Unauthorized retry after an Unauthorized call ends in LossTruth with the written message " ()", which lacks the "Maybe all tokens are expired?" text |
| Client.Coordinator.ForcedAuth | src/tele2-ats2-client/client.js:189-191 | `forcedAuth` runs or joins the strategy once and rejects exactly when it does; the new state is the awaited run's state |
| Errors.TaxonomyInstances | src/tele2-ats2-client/exceptions.js:1-21 | LossTruth and Proxy errors are instances of Tele2Ats2ClientError and only client errors are; likewise for the API errors and Unauthorized |
| ClientExceptions.Construct | src/tele2-ats2-client/exceptions.js:5-17 | a string is the message; an Error lends its message or class name and is kept as cause; anything else gives `String(arg)`, and "unknown error" when that is empty |
| ClientExceptions.NewClientError | src/tele2-ats2-client/exceptions.js:6-8 | a client error built from a string carries that string as message and is a Tele2Ats2ClientError |
| Decorators.IsAxiosError | src/tele2-ats2-api/decorators.js:3-5 | only an Error instance that is not one of the library's own errors qualifies; a thrown non-Error value never does |
| Decorators.Matches | src/tele2-ats2-api/decorators.js:26-34 | a rule matches only its status; without message and details the status decides alone; a set message or details must be equal |
| Decorators.FallbackMessage | src/tele2-ats2-api/decorators.js:22 | an Error's own message; for a non-Error value its string `message` property, else its text |
| Decorators.FirstMatch | src/tele2-ats2-api/decorators.js:25-35 | the index of the first matching rule in list order, every earlier rule failing; none only when no rule matches |
| Decorators.Construct | src/tele2-ats2-api/decorators.js:35 | a rule's exception is built with no message and is an API error; an undefined exception gives a TypeError that is not an API error |
| Decorators.GenericApiError | src/tele2-ats2-api/decorators.js:37-39 | the fallback is a generic Tele2Ats2ApiError carrying the failure's message, or for a non-Error value its `message` property or text |
| Decorators.Classify | src/tele2-ats2-api/decorators.js:16-40 | API errors are rethrown unchanged; failures without a response become generic API errors; otherwise the first matching rule decides, and no match gives the generic error |
| Decorators.Decorate | src/tele2-ats2-api/decorators.js:13-41 | a successful call's result is returned unchanged; a failure is classified |
| Decorators.ReclassifyApiError | src/tele2-ats2-api/decorators.js:17-19 | classifying an API error again changes nothing |
| Decorators.MissingConstructorNotIdempotent | src/tele2-ats2-api/decorators.js:20-35 | the TypeError of an undefined rule exception is wrapped into a generic API error by a second classification |
| ApiMethods.Rules | src/tele2-ats2-api/api-methods.js:109-112 | as intended, with a typed 500 rule: click-to-call uses the default rules followed by the 404 rule; every other endpoint uses the default rules |
| ApiMethods.WrittenRules | src/tele2-ats2-api/api-methods.js:7-17 | as written, the rules differ from the intended ones only in the 500 rule, whose exception is undefined |
| ApiMethods.WrittenEndpointRequest | src/tele2-ats2-api/api-methods.js:24-115 | as written: the token is sent as the Authorization header; click-to-call sets `source` and `destination` and nothing else; other endpoints send no query; no proxy is set |
| ApiMethods.EndpointRequest | src/tele2-ats2-api/api-methods.js:24-115 | as intended, the request carries the client's proxy converted for axios, and is otherwise the request as written |
| ApiMethods.ProxyIgnored | src/tele2-ats2-api/api-methods.js:24-115 | as written, a configured proxy never reaches the request, which therefore differs from the intended one |
| ApiMethods.ProxyReachesRequest | src/tele2-ats2-api/utils.js:6-24 | as intended, the request goes through the configured proxy, with credentials exactly when user and password are set, and through none without one |
| ApiMethods.EndpointResult | src/tele2-ats2-api/api-methods.js:25-37 | an endpoint returns the response data unchanged, or the failure classified by its rules as written |
| ApiMethods.TokenUpdatedIsUnauthorized | src/tele2-ats2-api/api-methods.js:7-12 | with the rules as written, a 403 with the token-updated details is Unauthorized at every endpoint |
| ApiMethods.Other403IsGeneric | src/tele2-ats2-api/api-methods.js:7-12 | with the rules as written, a 403 with other details is a generic API error with the transport message |
| ApiMethods.NotFoundOnlyForClick2Call | src/tele2-ats2-api/api-methods.js:109-112 | with the rules as written, a 404 is EmployeeNotFound for click-to-call and generic for every other endpoint |
| ApiMethods.ServerErrorIsUntyped | src/tele2-ats2-api/api-methods.js:13-16 | with the rules as written, a 500 fails with a TypeError that is not an API error |
| ApiMethods.ServerErrorIsTyped | src/tele2-ats2-api/api-methods.js:13-16 | with the intended rules, a 500 is a Tele2Ats2ApiServerError, an API error |
| SearchParams.Set | src/tele2-ats2-api/api-methods.js:100-101 | after `set` the key maps to the value, other keys keep theirs, and a new key is appended at the end |
| ApiRecordings.SortText | src/tele2-ats2-api/api-recordings.js:58-62 | the sort text is the key unchanged, a comma, then the order in capitals |
| ApiRecordings.InfoFilters | src/tele2-ats2-api/api-recordings.js:37-63 | the listing sets eight filters, no key twice |
| ApiRecordings.SetFilter | src/tele2-ats2-api/api-recordings.js:37-63 | one `if (value) set(key, value)` step appends a set filter to the query and skips an unset one |
| ApiRecordings.SetFilters | src/tele2-ats2-api/api-recordings.js:37-63 | the eight steps in order build the query of the set filters, from an empty one |
| ApiRecordings.InfoFiltersLookup | src/tele2-ats2-api/api-recordings.js:37-63 | every filter reads back from the built query as set (page and size 0 omitted), and there is one pair per set filter |
| ApiRecordings.CallRecordsInfoRequest | src/tele2-ats2-api/api-recordings.js:34-72 | the listing request: GET /call-records/info with the access token and exactly the truthy filters, sort as `key,ORDER`; the client's proxy is not passed on |
| ApiRecordings.FileUrl | src/tele2-ats2-api/api-recordings.js:76-77 | the file URL is /call-records/file with the one query pair `filename` |
| ApiRecordings.ProcessRecord | src/tele2-ats2-api/api-recordings.js:74-87 | an entry with a file name gains its file URL and a parsed date, keeping every other property; other entries are unchanged |
| ApiRecordings.MapRecords | src/tele2-ats2-api/api-recordings.js:74 | the result has the same length and order as the data, each entry processed |
| ApiRecordings.CallRecordsInfoResult | src/tele2-ats2-api/api-recordings.js:65-87 | the listing resolves with the processed entries, or the failure classified by this module's rules as written |
| ApiRecordings.CallRecordsFileRequest | src/tele2-ats2-api/api-recordings.js:95-108 | the download request: the file URL, the access token, an audio Content-Type and a streamed body; no proxy is set |
| ApiRecordings.ProxiedFileRequest | src/tele2-ats2-api/api-recordings.js:100-106 | as intended, the download request carries the client's proxy converted for axios, and is otherwise the request as written |
| ApiRecordings.RecordingsProxyIgnored | src/tele2-ats2-api/api-recordings.js:100-106 | as written, a configured proxy never reaches the download request, which differs from the intended one; the intended one goes through that proxy, with credentials exactly when user and password are set |
| ApiRecordings.WrittenCallRecordsFileResult | src/tele2-ats2-api/api-recordings.js:99-109 | as written, the download resolves with the stream as the file's first (filename) argument and no octetstream, or the classified failure |
| ApiRecordings.DownloadedRecordingBuffer | src/tele2-ats2-api/api-recordings.js:109 | as written, `toBuffer` on a downloaded recording always fails reading `.on` of undefined |
| ApiRecordings.CallRecordsFileResult | src/tele2-ats2-api/api-recordings.js:99-109 | as intended, the download resolves with a file named by the requested file name whose octetstream is the stream, or the failure classified by the rules as written |
| ApiRecordings.DownloadRecording | src/tele2-ats2-api/api-recordings.js:95-109 | as intended, `toBuffer` on a downloaded recording settles as the response stream does |
| ApiRecordings.RecordLinkIsDownloadUrl | src/tele2-ats2-api/api-recordings.js:76-77 | an entry's link is the URL the download endpoint fetches for that file name |
| ApiRecordings.BareServerErrorIsGeneric | src/tele2-ats2-api/api-recordings.js:14-18 | with the rules as written, a 500 without the server-error details matches no rule and is a generic API error |
| ApiRecordings.DetailedServerErrorIsUntyped | src/tele2-ats2-api/api-recordings.js:14-18 | with the rules as written, a 500 with the server-error details fails with the undefined constructor's TypeError, not an API error |
| ApiRecordings.DetailedServerErrorIsTyped | src/tele2-ats2-api/api-recordings.js:14-18 | with the intended rules, it is a Tele2Ats2ApiServerError, an API error |
| ApiFile.Settlement | src/tele2-ats2-api/file.js:25-39 | the promise stays pending exactly while the stream has sent only data; a rejection carries the error of one of its `error` events |
| ApiFile.ToBuffer | src/tele2-ats2-api/file.js:25-39 | the promise settles as the event trace says: the first `end` resolves with the chunks so far, the first `error` rejects; a non-stream fails on `.on` |
| ApiFile.ConcatenatesChunksOnEnd | src/tele2-ats2-api/file.js:26-36 | chunks followed by `end` resolve to their concatenation in arrival order, empty when there are none |
| ApiFile.RejectsOnError | src/tele2-ats2-api/file.js:37 | an `error` before `end` rejects with that error |
| ApiFile.PendingUntilSettled | src/tele2-ats2-api/file.js:32-38 | without `end` or `error` the promise stays pending |
| ApiUtils.ProxyHttpToAxiosProxy | src/tele2-ats2-api/utils.js:6-24 | no proxy gives `false`; host and port are copied; credentials are passed exactly when user and password are both non-empty |
| ProxyStores.LoadProxy | src/tele2-ats2-client/proxy-store.static.impl.js:17-27 | null without a proxy, else a copy equal to the configured proxy |
| ProxyStores.ClientSeesConfiguredProxy | src/tele2-ats2-client/proxy-store.static.impl.js:17-27 | the proxy the client reads from a static store is the configured one, none for a null reply |
| FileTokenStores.AccessTokenOf | src/tele2-ats2-client/token-store.file.impl.js:28-37 | only a readable file gives an answer; a missing one fails with ENOENT; a stale file gives no access token, a current one its own |
| FileTokenStores.RefreshTokenOf | src/tele2-ats2-client/token-store.file.impl.js:42-61 | it fails exactly on a read failure or a missing file without a constructor token; the token is the constructor's or the file's; the constructor token wins over a missing or stale file |
| FileTokenStores.Saved | src/tele2-ats2-client/token-store.file.impl.js:63-76 | the saved file holds the pair and is never stale for the store that wrote it |
| FileTokenStores.FileTokenStore.constructor | src/tele2-ats2-client/token-store.file.impl.js:18-23 | the filename defaults to ".tele2ats2.token.json"; the constructor token is kept |
| FileTokenStores.FileTokenStore.LoadAccessToken | src/tele2-ats2-client/token-store.file.impl.js:28-37 | a read failure, a missing file included, propagates; a stale file gives null |
| FileTokenStores.FileTokenStore.LoadRefreshToken | src/tele2-ats2-client/token-store.file.impl.js:42-61 | a missing file falls back to the constructor token or fails "No refresh token provided"; other read failures propagate; a stale file gives the constructor token |
| FileTokenStores.FileTokenStore.SaveTokens | src/tele2-ats2-client/token-store.file.impl.js:63-76 | the file now holds the pair and the constructor token as `startRefreshToken` |
| FileTokenStores.SaveLoadRoundTrip | src/tele2-ats2-client/token-store.file.impl.js:28-76 | after a save both loads give back the saved pair |
| FileTokenStores.ConstructorTokenWins | src/tele2-ats2-client/token-store.file.impl.js:32-48 | a non-empty constructor token other than the file's gives no access token and the constructor token |
| FileTokenStores.NoConstructorTokenTrustsFile | src/tele2-ats2-client/token-store.file.impl.js:32-51 | without a constructor token the file's tokens are used whatever `startRefreshToken` it records |
| FileTokenStores.MissingFile | src/tele2-ats2-client/token-store.file.impl.js:52-60 | a missing file fails the access-token load; the refresh-token load succeeds exactly when there is a constructor token, and gives it |
| FileTokenStores.SaveThenLoad | src/tele2-ats2-client/token-store.file.impl.js:63-76 | saving through the class and loading back gives the saved pair |
| MemoryTokenStores.MemoryTokenStore.constructor | src/tele2-ats2-client/token-store.memory.impl.js:15-20 | the store holds the given tokens, the access token none when absent |
| MemoryTokenStores.MemoryTokenStore.LoadAccessToken | src/tele2-ats2-client/token-store.memory.impl.js:25-27 | the load returns the current access token and changes nothing |
| MemoryTokenStores.MemoryTokenStore.LoadRefreshToken | src/tele2-ats2-client/token-store.memory.impl.js:32-34 | the load returns the current refresh token and changes nothing |
| MemoryTokenStores.MemoryTokenStore.SaveTokens | src/tele2-ats2-client/token-store.memory.impl.js:36-39 | both fields are overwritten with the saved pair |
| MemoryTokenStores.FreshStoreHasNoAccessToken | src/tele2-ats2-client/token-store.memory.impl.js:18 | a store built without an access token has none to load |
| MemoryTokenStores.SaveThenLoad | src/tele2-ats2-client/token-store.memory.impl.js:25-39 | saving then loading gives back the saved pair, whatever was held before |

## Left out

- HTTP transport is not modelled: the axios calls, the API host constant and URL percent-encoding. Requests are records of verb, path, query pairs and headers.
- Real asynchronous interleaving is not modelled. A strategy run's effects are placed in the log when it settles, and callers join only through `RunStrategyAuth`/`Settle`. Interleavings of a run with other lookups are not captured.
- `setTimeout` is not modelled: a sleep is the logged effect `Sleep(ms)`.
- The token file's I/O and serialisation are not modelled (`fs.readFile`, `fs.writeFile`, `JSON.parse`, `JSON.stringify`). The file is the abstract state `FileState`, and `null` and `undefined` fields are not told apart.
- FileTokenStores.FileTokenStore.SaveTokens: write failures are not modelled; a save always succeeds.
- Node stream mechanics and `Buffer.concat` internals are not modelled: a stream is the sequence of events it emits.
- `Date` parsing and `toISOString` are not modelled: a date is the text it prints as.
- Numbers are modelled as integers, so NaN and fractional page or size values are out. `toUpperCase` is modelled on ASCII letters only.
- The facade methods of `Tele2Ats2Client` (client.js:193-276) are left out: they only forward to `callApiMethod`.
- The refresh endpoint is an oracle that gives the classified outcome the client sees. Its request and classification are modelled separately (`ApiMethods.WrittenEndpointRequest`, `ApiMethods.EndpointResult`).
- The abstract store classes, index.js and the type declarations are left out: they declare interfaces or re-export and hold no logic.
- `Tele2Ats2ClientError`'s captured stack and `Error.prototype` details are left out; a client error is its class and message.

## Findings

| source | as written | input that shows it | evidently intended | confidence | as-written member | corrected member |
|---|---|---|---|---|---|---|
| src/tele2-ats2-api/api-methods.js:13-16 | the 500 rule's exception is `Exceptions.Tele2Ats2ApiServerError`, which exceptions.js does not export, so `new handler.exception()` throws a TypeError | any endpoint answering HTTP 500 | a 500 is thrown as a `Tele2Ats2ApiServerError`, an API error | not executed | ApiMethods.ServerErrorIsUntyped | ApiMethods.ServerErrorIsTyped |
| src/tele2-ats2-api/api-recordings.js:14-18 | the same undefined exception in the recordings' 500 rule | HTTP 500 with details "Tele2 Server Error" | a `Tele2Ats2ApiServerError` | not executed | ApiRecordings.DetailedServerErrorIsUntyped | ApiRecordings.DetailedServerErrorIsTyped |
| src/tele2-ats2-client/client.js:159-163 | `+` binds tighter than `?:`, so the condition is the always-truthy concatenation and the message is `" (" + msg + ")"` | any msg, including undefined (gives " (undefined)") | "Maybe all tokens are expired?" followed by " (msg)" when msg is set | not executed | Client.LossTruthDropsPrefix | Client.LossTruthKeepsPrefix |
| src/tele2-ats2-api/api-recordings.js:109 | `new Tele2Ats2File(res.data)` passes the stream as the filename and no octetstream, so `toBuffer` reads `.on` of undefined | any successful download followed by `toBuffer()` | the file is built from the requested file name and the stream | not executed | ApiRecordings.DownloadedRecordingBuffer | ApiRecordings.DownloadRecording |
| src/tele2-ats2-api/api-methods.js:24-115 | the endpoints receive `proxy` from the client but never give it to axios | a client configured with a proxy store that returns a proxy | the request goes through the configured proxy | not executed | ApiMethods.ProxyIgnored | ApiMethods.ProxyReachesRequest |
| src/tele2-ats2-api/api-recordings.js:100-106 | the recordings endpoints also receive `proxy` and never give it to axios (the listing at api-recordings.js:65-69 likewise) | a client with a proxy store that returns a proxy, downloading a recording | the download goes through the configured proxy | not executed | ApiRecordings.RecordingsProxyIgnored | ApiRecordings.ProxiedFileRequest |
