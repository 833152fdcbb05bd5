# Scrape handler model

A Dafny model of the serverless request handler `api/scrape.js`. The handler starts a headless Chromium and loads a target URL, either directly or inside an iframe wrapper. It can clear the target's local storage and load it again, click an element and wait. It returns the network requests the page issued that passed the interception filter.

The model has one module per concern:

- `Wrappers`: `Option` and `Result`.
- `Text`: JavaScript's `includes` and `endsWith` over `seq<char>`, and the truthiness of an optional query string.
- `Config`: the URL check and the resolution of the query parameters. A flag is on only for the exact string `"true"`. Iframe mode and the wait follow plain truthiness.
- `Profile`: the launch arguments, the context options, the fixed client-hint headers and the extra-header map with the optional `Origin` and `Referer`.
- `Interception`: the route callback's three-way verdict (abort, record and continue, or continue). It also holds the capture list as a class, `CaptureLog`, whose `requests` field the callback appends to.
- `Session`: the handler as a sequence of calls into the browser stack.
  - Each awaited call site is one `Action`.
  - An `Env` value says which calls throw, whether the click selector's wait resolves to null, and which requests the page issues during each call.
  - The spec functions `SetupPhase` … `TeardownPhase` and `Handler` give the calls made, the response and whether `finally` rejects.
  - The class `Browser` and the methods `OpenPage`, `LoadTarget`, `ClearAndReload`, `ClickIfRequested`, `WaitIfRequested`, `RunSession` and `Handle` follow the code statement by statement. Each is proved to agree with its spec function.
- `SessionProperties`: the properties of the handler, proved about the spec functions.

Three behaviours of the code are easy to miss:

- **Storage reset.** Clearing local storage and loading the target again does not empty the capture list. Requests captured during the first load stay at its head (`FirstLoadRequestsKept`).
- **Teardown.** `finally` awaits `browser.close()`, `fontconfig_clear()` and `cld_clear()` one after the other. A rejected close therefore skips both clean-ups, and the handler's promise rejects (`TeardownAfterTry`, `FailedCloseSkipsCleanup`).
- **Iframe mode.** It follows the truthiness of the raw `iframe` string, so `iframe=false` still embeds the target (`IframeFalseStillEmbeds`).

## Model

The spec functions `Interception.Captured`, `Session.SetupPhase` … `Session.TeardownPhase`, `Session.TryPhase` and `Session.Handler` have no rows of their own. The rows of the methods proved equal to them (`CaptureLog.OnRequest`, `OpenPage`, `LoadTarget`, `ClearAndReload`, `ClickIfRequested`, `WaitIfRequested`, `RunSession`, `Handle`) and the lemmas about them stand for them.

| member | source | states |
|---|---|---|
| Text.Contains | api/scrape.js:92-96 | `s.includes(sub)` is true exactly when `sub` occurs in `s` at some position |
| Text.EndsWithAny | api/scrape.js:88-89 | `suffixes.some(ext => s.endsWith(ext))` is true exactly when one of the listed suffixes ends `s` |
| Interception.Classify | api/scrape.js:85-103 | The request is aborted exactly when it is a static asset or a tracker. A static asset is one whose resource type is image, stylesheet or font, or whose whole URL ends in one of the eleven extensions. A tracker is one whose URL contains `google-analytics` or `googletagmanager`. It is recorded exactly when it is neither and the filter is absent, empty, or contained in the URL. Otherwise it continues unrecorded. |
| Interception.CapturedInArrivalOrder | api/scrape.js:81-104 | The capture list holds one entry per recorded request, in arrival order. Each entry is that request's url, method and headers. A request is in the list exactly when its verdict is record-and-continue. |
| Interception.CapturedAppend | api/scrape.js:81-104 | The capture list only grows: the list after two batches of requests is the first batch's list followed by the second's |
| Interception.BlockedRequestLeavesNoTrace | api/scrape.js:89-94 | An aborted asset or tracker request leaves the capture list exactly as if it had never been issued, whatever the filter |
| Interception.CaptureLog.constructor | api/scrape.js:81 | The list starts empty and agrees with an empty history |
| Interception.CaptureLog.OnRequest | api/scrape.js:83-104 | The callback pushes the record onto `requests` exactly when the verdict is record-and-continue. `requests` stays equal to the capture list of every request seen so far. |
| Config.IsTrueFlag | api/scrape.js:27-29 | A flag is on exactly when the parameter is the string `"true"` |
| Config.WaitMillis | api/scrape.js:26 | The wait is 0 when `wait` is absent or empty, and exactly the parsed milliseconds when `wait` is truthy |
| Config.Resolve | api/scrape.js:11-29 | Resolution fails exactly when `url` is absent or empty. Otherwise the url, filter, selector, origin and referer are passed through. Iframe mode is the truthiness of `iframe`. Clear-storage, stealth and headful are the exact string `"true"`. The wait is the parsed milliseconds for a truthy `wait` and 0 otherwise. |
| Profile.ExtraHeaders | api/scrape.js:76-78 | The header keys are the seven client hints, plus `Origin` and `Referer` exactly when those parameters are truthy. The hint values are unchanged and the two values are the supplied strings. |
| Profile.BuildHeaders | api/scrape.js:76-78 | Copying the hints and making the two conditional assignments builds exactly `ExtraHeaders` |
| Session.Browser.constructor | api/scrape.js:48 | A fresh browser stack has seen no call |
| Session.Browser.Perform | api/scrape.js:57-79 | An awaited call is logged and its reply is the one the environment gives |
| Session.Browser.PerformRouted | api/scrape.js:83-104 | While a call runs, each request it triggers passes through the route callback in order. The capture log stays consistent with everything seen. |
| Session.OpenPage | api/scrape.js:57-104 | The setup calls, from executable lookup through launch, context, page and headers to the route, are exactly `SetupPhase`. `browser` is set exactly when the launch resolved, and the capture list starts empty. |
| Session.LoadTarget | api/scrape.js:106-114 | The initial load makes exactly the calls of `LoadPhase`. When it succeeds, `pageOrFrame` is the frame in iframe mode and the page otherwise. |
| Session.ClearAndReload | api/scrape.js:116-130 | The storage clear and the single reload make exactly the calls of `ClearPhase` |
| Session.ClickIfRequested | api/scrape.js:132-144 | The guarded click makes exactly the calls of `ClickPhase` and never propagates a throw |
| Session.WaitIfRequested | api/scrape.js:146-150 | The extra wait makes exactly the calls of `WaitPhase` |
| Session.RunSession | api/scrape.js:49-163 | The `try` block makes the calls of `TryPhase`. It answers 200 with the captured requests when nothing escaped it, and 500 otherwise. |
| Session.Handle | api/scrape.js:7-169 | The whole handler produces exactly `Handler`'s response, call log and rejection |
| SessionProperties.CallsFollowSourceOrder | api/scrape.js:49-168 | Whatever the query and the environment, the calls come in the order of the code, and no call is made twice |
| SessionProperties.SuccessfulRunFollowsPlan | api/scrape.js:57-150 | When nothing escapes `try`, the calls are setup, load, the optional clear and reload, a prefix of the click's calls, then the optional wait. The requests seen are the traffic of those calls after the route was installed. |
| SessionProperties.UndisturbedRunFollowsPlan | api/scrape.js:57-150 | When no planned call throws and the click target exists, the `try` block makes exactly the planned calls and does not throw |
| SessionProperties.EveryCallIsPlanned | api/scrape.js:57-150 | However calls fail, every call of the `try` block is one of its planned calls |
| SessionProperties.MissingUrlIsBadRequest | api/scrape.js:24 | Without a truthy `url` the answer is 400 with the fixed message, and no browser call is made |
| SessionProperties.TeardownAfterTry | api/scrape.js:164-168 | Teardown appends to the `try` calls. The browser is closed exactly when it was launched. Each clean-up is made exactly when no earlier teardown call threw. The handler rejects exactly when a teardown call threw. |
| SessionProperties.FailedCloseSkipsCleanup | api/scrape.js:165-167 | If a launched browser's close throws, neither engine clean-up is made and the handler rejects |
| SessionProperties.ClickNeverFatal | api/scrape.js:133-144 | Two environments that differ only in how the click's calls end give the same status code and the same rejection |
| SessionProperties.ResponseEchoesQuery | api/scrape.js:153-160 | A 200 answer names the URL, echoes stealth and headful as the exact `"true"` flags, and returns the capture list of the `try` block's traffic |
| SessionProperties.LaunchFollowsHeadful | api/scrape.js:57-67 | The launch uses the engine's arguments followed by the four sandbox flags. It is headless unless `headful` is exactly `"true"`. |
| SessionProperties.HeadersFollowQuery | api/scrape.js:75-79 | The headers installed on the page are the client hints plus the truthy origin and referer |
| SessionProperties.LoadModeFollowsIframeTruthiness | api/scrape.js:107-114 | The first load injects the iframe wrapper when `iframe` is truthy, and otherwise navigates to the URL |
| SessionProperties.IframeFalseStillEmbeds | api/scrape.js:107-108 | `iframe=false` selects the iframe path |
| SessionProperties.TargetsFollowIframeMode | api/scrape.js:119-135 | The storage clear and the click's wait act on the frame in iframe mode and on the page otherwise |
| SessionProperties.ReloadFollowsIframeMode | api/scrape.js:125-129 | The reload after the clear re-navigates the frame in iframe mode and reloads the page otherwise |
| SessionProperties.StorageResetLoadsOnceMore | api/scrape.js:106-130 | A 200 answer means the target was loaded once, or twice when `clearlocalstorage` is `"true"` |
| SessionProperties.FirstLoadRequestsKept | api/scrape.js:81-130 | In a 200 answer, the requests captured during the first load head the returned list, even after a storage reset |
| SessionProperties.WaitOnlyWhenPositive | api/scrape.js:146-150 | The extra wait is made only for a truthy `wait` with a positive parsed length, and lasts that length |
| SessionProperties.WaitMadeWhenPositive | api/scrape.js:146-150 | Conversely, a truthy `wait` with a positive parsed length is waited out for that length whenever no call outside the click throws |
| SessionProperties.OnlyClickThrowsCompletes | api/scrape.js:57-150 | When no planned call outside the click throws, nothing escapes the `try` block, whatever the click's calls do |
| SessionProperties.TryThrowsEscape | api/scrape.js:57-150 | While nothing has escaped the `try` block, none of its calls outside the click threw: the click's own `catch` is the only one that swallows a throw |
| SessionProperties.FatalThrowIsServerError | api/scrape.js:161-163 | A handler call outside the click and the clean-ups that throws always leads to the 500 answer |

## Left out

- The stealth plugin registration (`playwrightExtra.use`) changes the library globally. Only its echo in `meta` is modelled.
- The choice between the two launcher objects is not modelled. Which object performs the launch is not observable in the calls or the response.
- `parseFloat(wait) * 1000` is a parameter, `parsedWaitMs`, as a whole number of milliseconds. Fractional milliseconds and the float parse itself are not modelled. A NaN parse is any non-positive value.
- The `Access-Control-Allow-Origin` and `Cache-Control` response headers are not modelled: they are constant and never depend on the query.
- Console logging is not modelled.
- The 500 body's text, which embeds the thrown error's message, is not modelled. The model keeps only the status.
- A content frame that resolves to null is not modelled. The model treats `contentFrame()` as resolving to the frame or throwing. A null frame's later failure can be expressed only by making that later call throw.
- Timing is not modelled. The 5-second waits and the caller's wait are arguments of their calls, not elapsed time.
- Concurrency is not modelled. Each request the page issues is handed to the route callback during exactly one awaited call. Requests still in flight after the response are not modelled.
- Query parameters given more than once (array values) are not modelled; every parameter is an optional string.
- TeardownAfterTry: states that the two engine clean-ups run only when no earlier teardown call threw, not on every exit path, because the code awaits them one after the other inside `finally`.
