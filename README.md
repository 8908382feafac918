# Request admission in `refresh`

This project models the request-admission core of `refresh`, a Deno/Fresh web application, in Dafny, and proves properties of that model. Every inbound request passes through this core:

- **Application middleware** (`handler`, `AppContext`). Gates the request on a context that is set up once. Then it dispatches the request to the 404 answer, a WebSocket upgrade, the static-file wrappers, the route wrapper or straight downstream.
- **Sentinel** (`rateLimit`, `sentinel`). Counts requests per client in an in-memory table and reports clients over quota. It overwrites a fixed catalogue of security headers, writes two rate-limit telemetry headers and deletes the server-fingerprint headers.
- **Route wrapper** (`Middlewares.route`). Runs the *traffic-jam ledger*: a per-client history of protected requests kept in the key-value store.
  - A request that finds a same-endpoint, same-method record still processing or unsolved is turned away. The answer is a 303 to `/api/v0/traffic-jam`, or a 429 when the client is over quota.
  - Otherwise a pending record is appended and the downstream handler runs.
  - Then the ledger is re-read and the record is marked solved.
  - Finally the response passes through the sentinel.
- **Static-file wrappers** (`Middlewares.worker`, `Middlewares.text`). Pass worker scripts and text files through the sentinel and force their content type.
- **Status endpoint** (`GET /api/v0/traffic-jam`). Reports one client's ledger, split into processing and finished records.
- **Response-envelope helpers** (`Http.data`, `Http.responder`, `Http.payloadExtractor`).

## Modules

| module | models |
|---|---|
| `Strings` | JavaScript's `\|\|` on strings, `toLowerCase`, `includes`, and decimal rendering of counts with its parse-back partner |
| `Fetch` | A `Headers` class changed in place; `Response`, request and thrown values |
| `Http` | The server-data envelope, `data`, `json`, `responder`, `payloadExtractor`, and the client identifier |
| `Sentinel` | The `RateLimiter` class over the client table; the `RateLimit` function that specifies it; the header policy `Secured` and the `Apply` method that performs it call by call |
| `Ledger` | Traffic records; the store (`Kv` class over a map); `find`/`findIndex`/`some`; the admission and resolve writes |
| `Middlewares` | `Route`, `Worker`, `Text`, each proved equal to a function of the old state and the inputs (`RouteResult`, `Finalize`) |
| `AppMiddleware` | `AppContext`; the registry slot behind `initialize`/`newInstance`; the `Handle` dispatcher, proved equal to `HandleResult` |
| `TrafficJamApi` | The status endpoint's `Get`, proved equal to `Answered` |

Inputs from outside the program:
- The clocks (`Date.now()`) are parameters `now`, `admittedAt` and `checkedAt`.
- The fresh request id (`uuidv7()`) is the parameter `requestId`.
- The formatted response time is the parameter `responseTime`.
- The downstream handler's outcome (`ctx.next()`) is a `NextResult`.
- The database probe of `setup` is a `Probe`.
- Whatever other requests do to the ledger between the admission write and the re-read is a `Between` value: untouched, rewritten or erased.

Observations about the code as written, all modelled:

- The limiter stores `now` on every counted request. Its 60-minute reset is therefore an idle timeout measured from the last counted request, not a fixed window.
- A method is checked against the ledger exactly when it is not one of the open methods. The protected-method list adds nothing, and unknown methods are checked.
- The route wrapper's own `catch` keeps the downstream error message as written. The handler's `catch`, used for the context gate and static downloads, lower-cases it.
- The handler's fallback returns `ctx.next()` without awaiting it. A downstream rejection there escapes the handler's `catch` (`Propagated`) instead of becoming a 500.
- When `setup` fails, `initialize` leaves the context in its slot, not ready. Later calls return that context without running `setup` again. In the program the only call is the top-level `await AppContext.initialize(...)` in `src/fresh.config.ts`, which has no `catch`, so a failed setup aborts startup and no request is served. Refusing every request with the not-initialized 500 is what the class does for a caller that survives the failure.
- The admission write stores `success: true` with code 102. Only the resolve write sets `success` from whether a record is still processing.
- `Http.json` and `Http.responder` pass the envelope's code to `Response.json` as the status. That call throws for a code outside 200-599, which would include the ledger's code 102, and for the null-body statuses 204, 205 and 304.
- The status endpoint always answers `success: true`, code 200 and the idle message, whatever the records say. It takes the stored-history branch even when the stored list is empty.

## Model

| member | source | states |
|---|---|---|
| Strings.OrElse | src/routes/_middleware.ts:89 | A present, non-empty string is kept; a missing or empty one falls back (JavaScript `\|\|`) |
| Strings.ToLower | src/routes/_middleware.ts:94 | Same length; each character lower-cased (ASCII letters) |
| Strings.Contains | src/helpers/classes/Http.ts:81 | True exactly when the substring occurs at some position |
| Strings.NatToString | src/helpers/functions/sentinel.ts:127-128 | The rendering of a count is a non-empty string of decimal digits with no leading zero (its first digit is 0 exactly for 0) and a single digit exactly below 10 |
| Strings.ParseNatToString | src/helpers/functions/sentinel.ts:127-128 | Reading the rendered digits back gives the number (round trip) |
| Strings.NatToStringCanonical | src/helpers/functions/sentinel.ts:127-128 | Any digit string without a leading zero is the rendering of the number it reads as, so the rendering is the canonical decimal text |
| Strings.NatToStringInjective | src/helpers/functions/sentinel.ts:127-128 | Different counts render to different telemetry texts |
| Fetch.NamedNeverCustom | src/helpers/functions/sentinel.ts:45-135 | Header names are compared without regard to case: no named header's wire name is a custom name, so a `Custom` key never aliases a header the sentinel sets or deletes |
| Fetch.Headers.constructor | src/helpers/classes/Middlewares.ts:157 | A new `Headers` holds exactly the given fields |
| Fetch.Headers.Set | src/helpers/functions/sentinel.ts:48-130 | `set` replaces that one header's value; every other header is unchanged |
| Fetch.Headers.Delete | src/helpers/functions/sentinel.ts:132-135 | `delete` removes that one header; every other header is unchanged |
| Http.Data | src/helpers/classes/Http.ts:47-58 | Each supplied field passes through; missing ones default to false, 500, `request` and the empty message |
| Http.DataOfComplete | src/helpers/classes/Http.ts:47-58 | `data` leaves a complete envelope unchanged |
| Http.DataIdempotent | src/helpers/classes/Http.ts:47-58 | Applying `data` twice equals applying it once |
| Http.JsonReply | src/helpers/classes/Http.ts:65-67 | A JSON reply with status = code and the envelope as body exactly when the code is in 200-599 and not a null-body status. Otherwise the `Response` constructor throws: a RangeError outside 200-599, a TypeError for 204/205/304 |
| Http.JsonReplyOfDefaults | src/helpers/classes/Http.ts:47-67 | An envelope that `data` completes without a code is sent with status 500 |
| Http.JsonReplyAccepted | src/helpers/classes/Http.ts:65-67 | `json` sends exactly the codes 200-599 other than 204, 205 and 304 |
| Http.Responder | src/helpers/classes/Http.ts:76-97 | A form content type gives 303 with exactly `location` (pathname, default `/entrance`) and `X-Purpose` (the type, or `unclear` when empty), plus the strict, secure, http-only 60-second `data` cookie. Any other type gives JSON with status = code and the envelope unchanged when the code is sendable. Otherwise it throws what `Response.json` throws: a RangeError outside 200-599, a TypeError for a null-body status |
| Http.PayloadExtractor | src/helpers/classes/Http.ts:12-40 | Unsupported type or parse failure gives `{}`. Otherwise the keys are the payload's plus `remoteIp`, payload values win, and `remoteIp` defaults to the client id |
| Http.ClientId | src/routes/_middleware.ts:89 | `X-Forwarded-For` when present and non-empty, else the peer's host name |
| Sentinel.RateLimit | src/helpers/functions/sentinel.ts:18-33 | HEAD/OPTIONS give `{false, 0}` and leave the table unchanged. An unseen client or a gap over the window gives count 1, not limited; otherwise count + 1. The entry becomes `{count, now}`. Limited iff count > 1000 |
| Sentinel.RateLimitFrame | src/helpers/functions/sentinel.ts:24-31 | Only the requesting client's entry is written; every other client's entry is unchanged |
| Sentinel.RunCounts | src/helpers/functions/sentinel.ts:22-31 | In a run with no idle gap over the window, a new client's n-th request is counted n, stored with the last time, and limited iff n > 1000 |
| Sentinel.QuotaBoundary | src/helpers/functions/sentinel.ts:6-31 | The 1000th request of such a run is not limited; the 1001st is |
| Sentinel.ExemptRunNeverCounts | src/helpers/functions/sentinel.ts:8-19 | Any run of HEAD/OPTIONS requests leaves the table unchanged and is never limited |
| Sentinel.RateLimiter.constructor | src/helpers/functions/sentinel.ts:9 | The client table starts empty |
| Sentinel.RateLimiter.Check | src/helpers/functions/sentinel.ts:18-33 | The in-place update returns the decision and leaves the table that `RateLimit` specifies |
| Sentinel.Remaining | src/helpers/functions/sentinel.ts:128 | The remainder is never negative and never above 1000. Under quota, remainder + count = 1000; at or over it, 0 |
| Sentinel.SecuredFixed | src/helpers/functions/sentinel.ts:48-125 | Every hardening header is present with its fixed value, whatever the headers and count |
| Sentinel.SecuredTelemetry | src/helpers/functions/sentinel.ts:127-128 | `X-Rate-Limit` is `count/1000`; `X-Rate-Limit-Remaining` is the floored remainder |
| Sentinel.SecuredStripped | src/helpers/functions/sentinel.ts:132-135 | `Server`, `X-Powered-By`, `X-AspNet-Version` and `X-AspNetMvc-Version` are absent afterwards |
| Sentinel.SecuredKeepsOthers | src/helpers/functions/sentinel.ts:45-139 | A header the policy neither sets nor deletes keeps its presence and value |
| Sentinel.SecuredIdempotent | src/helpers/functions/sentinel.ts:45-139 | Applying the policy twice with the same count equals applying it once |
| Sentinel.InOrderSecured | src/helpers/functions/sentinel.ts:48-135 | The policy's `set`/`delete` calls, in source order, yield exactly `Secured` |
| Sentinel.SetHardenings | src/helpers/functions/sentinel.ts:48-125 | The first nineteen `set` calls leave the headers as the first nineteen hardening headers, by rank, set to their values |
| Sentinel.Apply | src/helpers/functions/sentinel.ts:45-139 | `sentinel`: the table is updated as `RateLimit` says, `rateLimited` equals its `limited`, and the headers object ends as `Secured` of its old fields and the count |
| Ledger.Kv.constructor | src/helpers/classes/Kv.ts:3 | The store holds the given entries |
| Ledger.Kv.Get | src/helpers/classes/Kv.ts:32-34 | The stored entry exactly when the key is present |
| Ledger.Kv.Set | src/helpers/classes/Kv.ts:22-24 | The key now holds the value with the given expiry; other keys are unchanged |
| Ledger.Kv.Delete | src/helpers/classes/Kv.ts:61-63 | The key holds nothing afterwards; other keys are unchanged |
| Ledger.Find | src/helpers/classes/Middlewares.ts:28-34 | None iff no record blocks (same endpoint and method, processing or unsolved); otherwise the first blocking record |
| Ledger.FindIndex | src/helpers/classes/Middlewares.ts:86 | -1 iff no record carries the id; otherwise the first index carrying it |
| Ledger.AnyProcessing | src/helpers/classes/Middlewares.ts:96 | True iff some record is processing |
| Ledger.Pending | src/helpers/classes/Middlewares.ts:47-56 | The appended record carries the fresh id, the client, the endpoint and the method, and is processing, `pending` and of purpose `unclear` |
| Ledger.Admission | src/helpers/classes/Middlewares.ts:58-64 | The admission envelope holds the old history with exactly the new record appended, reports success, code 102, the active message and kind `request` |
| Ledger.Resolution | src/helpers/classes/Middlewares.ts:78-108 | Nothing is written iff the re-read history is empty, the admitted history is empty, or no record carries the admitted id |
| Ledger.ResolutionSolves | src/helpers/classes/Middlewares.ts:85-94 | A resolve write changes only the first record with the admitted id: it becomes solved and not processing, with purpose `X-Purpose` or `unclear`. Every other record keeps its value and position |
| Ledger.ResolutionStatus | src/helpers/classes/Middlewares.ts:96-103 | After a resolve, success iff no record is processing; code 200/102 and the idle/active message to match; the stored kind, errors and feedback are kept |
| Ledger.AdmissionBlocksRepeat | src/helpers/classes/Middlewares.ts:28-66 | After an admission, an identical request finds the appended record as its blocker |
| Ledger.FindIndexAppended | src/helpers/classes/Middlewares.ts:85-86 | A fresh id appended last is found at the end |
| Ledger.AdmitThenResolveHistory | src/helpers/classes/Middlewares.ts:47-94 | Run sequentially, admit then resolve leaves the old history with the solved record appended |
| Ledger.FindAppendedSolved | src/helpers/classes/Middlewares.ts:28-34 | Appending a solved, non-processing record to a blocker-free history keeps it blocker-free |
| Ledger.AdmitThenResolve | src/helpers/classes/Middlewares.ts:28-94 | Run sequentially, admit then resolve leaves no record that rejects an identical later request |
| Middlewares.TrafficJam | src/helpers/classes/Middlewares.ts:10-20 | A method is checked iff it is not one of GET, HEAD, OPTIONS, CONNECT, TRACE |
| Middlewares.TrafficJamMethods | src/helpers/classes/Middlewares.ts:10-20 | Protected and unknown methods are checked; open methods are not |
| Middlewares.Downstream | src/helpers/classes/Middlewares.ts:72-76 | The downstream response, or a 500 whose body is the prefix plus the error message (`unknown error` for a non-Error) |
| Middlewares.Finalize | src/helpers/classes/Middlewares.ts:110-121 | Over quota gives 429 with no body; otherwise status, status text and body pass through |
| Middlewares.FinalizeHeaders | src/helpers/classes/Middlewares.ts:110-121 | The headers are the secured ones; when passed on, `X-Response-Time` and the forced content type are added and nothing else changes |
| Middlewares.FinalizeSecured | src/helpers/classes/Middlewares.ts:111 | Every finalized response carries all hardening headers with their fixed values and the telemetry headers, and no fingerprint header |
| Middlewares.Rejected | src/helpers/classes/Middlewares.ts:36-44 | A rejection has no body and status 429 when over quota, else 303 |
| Middlewares.RejectedHeaders | src/helpers/classes/Middlewares.ts:38-42 | The rejection's headers are the sentinel's over an empty set, plus `location: /api/v0/traffic-jam` on the 303 |
| Middlewares.Interleave | src/helpers/classes/Middlewares.ts:66-80 | Another request's change between the two reads touches only this client's key |
| Middlewares.OpenMethodSkipsLedger | src/helpers/classes/Middlewares.ts:20-78 | An open method leaves the store unchanged and always reaches downstream |
| Middlewares.BlockedIsRejected | src/helpers/classes/Middlewares.ts:28-44 | A blocked request leaves the store unchanged and gets no body. The status is 429 or 303, and the 303 goes to the traffic-jam page. The answer does not depend on the downstream outcome |
| Middlewares.OverQuotaIs429 | src/helpers/classes/Middlewares.ts:110-113 | Over quota, `route` always answers an empty 429 |
| Middlewares.ThrownIs500 | src/helpers/classes/Middlewares.ts:72-121 | A downstream throw reaches a client under quota as a 500 naming the error, its case kept |
| Middlewares.RouteFrame | src/helpers/classes/Middlewares.ts:25-79 | `route` writes only the requesting client's ledger key |
| Middlewares.AdmittedRunClears | src/helpers/classes/Middlewares.ts:24-108 | Sequential run with a fresh id: the ledger ends as the old history plus the solved record, written with the 24-hour expiry and free of blockers |
| Middlewares.LostRecordNotWritten | src/helpers/classes/Middlewares.ts:84-88 | If the ledger was erased, or rewritten without the admitted id, the resolve step writes nothing |
| Middlewares.Route | src/helpers/classes/Middlewares.ts:18-122 | The response, store and client table are those `RouteResult` gives for the old state |
| Middlewares.Reject | src/helpers/classes/Middlewares.ts:36-44 | The rejection branch returns `Rejected` of the limiter's decision and updates the table |
| Middlewares.Interfere | src/helpers/classes/Middlewares.ts:80 | The store changes as `Interleave` says |
| Middlewares.Resolve | src/helpers/classes/Middlewares.ts:78-108 | The in-place resolve leaves the store as `Resolution` specifies, or unchanged |
| Middlewares.Pass | src/helpers/classes/Middlewares.ts:110-121 | The response is `Finalize` of the limiter's decision; the table is updated |
| Middlewares.Worker | src/helpers/classes/Middlewares.ts:156-178 | `Finalize` with `application/javascript` forced |
| Middlewares.Text | src/helpers/classes/Middlewares.ts:185-207 | `Finalize` with `text/plain; charset=utf-8` forced |
| AppMiddleware.Describe | src/routes/_middleware.ts:118-119 | An Error's message lower-cased character by character; any other value as its text |
| AppMiddleware.AppContext.constructor | src/routes/_middleware.ts:23-26 | A new context holds its id and environment and is not ready |
| AppMiddleware.AppContext.Setup | src/routes/_middleware.ts:57-75 | A ready context stays ready. Otherwise a connected probe makes it ready, and a failed probe leaves it not ready and returns the lower-cased failure |
| AppMiddleware.Registry.constructor | src/routes/_middleware.ts:15 | The slot starts empty |
| AppMiddleware.Registry.Initialize | src/routes/_middleware.ts:34-40 | An existing context is returned unchanged, with no setup. Otherwise a fresh context is stored and set up, and kept even when setup fails |
| AppMiddleware.Registry.NewInstance | src/routes/_middleware.ts:47-50 | The context iff it exists and is ready; otherwise the not-initialized error |
| AppMiddleware.InitializeThenAcquire | src/routes/_middleware.ts:34-50 | After a successful first initialize, a later call returns the same context and `newInstance` succeeds. After a failed one, `newInstance` keeps refusing |
| AppMiddleware.Classify | src/routes/_middleware.ts:84-117 | Dispatch order, each branch stated as an iff: not ready, 404, websocket upgrade, static, route, fallback |
| AppMiddleware.StaticSelection | src/routes/_middleware.ts:98-110 | `.txt` goes to `text`, even under `/workers/`. `worker` is chosen iff the path is not `.txt`, starts `/workers/` and ends `.js` |
| AppMiddleware.NotInitializedLowered | src/routes/_middleware.ts:118-119 | The lower-cased not-initialized message |
| AppMiddleware.UninitializedIs500 | src/routes/_middleware.ts:84-121 | With no ready context, every request gets the 500 with the lower-cased message, and nothing is counted or stored |
| AppMiddleware.OtherStaticUntouched | src/routes/_middleware.ts:112 | Any other static response is returned as it came, with no sentinel and no counting |
| AppMiddleware.StaticFailureIs500 | src/routes/_middleware.ts:96-119 | A failed static download is a 500 with the lower-cased message; nothing is counted or stored |
| AppMiddleware.FallbackPropagates | src/routes/_middleware.ts:117 | A rejection of the unawaited fallback escapes the handler |
| AppMiddleware.RouteUsesClientId | src/routes/_middleware.ts:89-115 | A routed request runs `route` under `X-Forwarded-For` if non-empty, else the peer's host name |
| AppMiddleware.Handle | src/routes/_middleware.ts:84-121 | The outcome, store and client table are those `HandleResult` gives for the registry's readiness and the old state |
| AppMiddleware.ServeStatic | src/routes/_middleware.ts:96-113 | The static branch is `StaticResult` of the path's classification |
| TrafficJamApi.ClientKey | src/routes/api/v0/traffic-jam/index.ts:17-20 | The `remoteIp` query parameter when non-empty, else the client id |
| TrafficJamApi.ClientKeyPreference | src/routes/api/v0/traffic-jam/index.ts:20 | Preference order: query parameter, then `X-Forwarded-For`, then host name, each skipped when empty |
| TrafficJamApi.Filter | src/routes/api/v0/traffic-jam/index.ts:39-40 | No longer than the history; every kept record has the requested flag |
| TrafficJamApi.FilterAppend | src/routes/api/v0/traffic-jam/index.ts:39-40 | Filtering distributes over concatenation, so order is kept |
| TrafficJamApi.FilterMembers | src/routes/api/v0/traffic-jam/index.ts:39-40 | A record is kept iff it is in the history with the requested flag |
| TrafficJamApi.FilterPartition | src/routes/api/v0/traffic-jam/index.ts:36-42 | The two lists together are the history, as multisets |
| TrafficJamApi.Selection | src/routes/api/v0/traffic-jam/index.ts:36-49 | `actives` present iff `active` or not `history`; `histories` present iff `history`; each holds its filtered list |
| TrafficJamApi.Answered | src/routes/api/v0/traffic-jam/index.ts:23-52 | Always success, code 200, kind `request`, the idle message and a data record |
| TrafficJamApi.NoLedgerIsEmpty | src/routes/api/v0/traffic-jam/index.ts:23-34 | With no ledger or no history list, both lists are empty |
| TrafficJamApi.BothFlagsPartition | src/routes/api/v0/traffic-jam/index.ts:36-42 | With both flags, actives are the processing records and histories the rest; they partition the stored history |
| TrafficJamApi.SingleFlagSelects | src/routes/api/v0/traffic-jam/index.ts:43-48 | Without `history`, only actives; with only `history`, only histories |
| TrafficJamApi.Get | src/routes/api/v0/traffic-jam/index.ts:15-53 | The answer is `Answered` of the store; the method has no `modifies`, so the ledger is only read |

## Left out

- `Middlewares.socket` (WebSocket upgrade and its event callbacks) is I/O driven by callbacks. The handler's upgrade branch ends in `SocketUpgrade`.
- Logging (`console.log` audit lines, `new Date().toISOString()`, `console.clear`) and the 2-second pause in `setup` have no observable effect on responses.
- The response time (`performance.now()` and `toFixed(2)`) is floating-point formatting. It is an input string.
- Expiry of store entries is recorded with each write but not enforced. `Kv.getMany`, `Kv.list` and `Kv.id` are not used by the core.
- The store is always available. Failures of `Kv.get`/`Kv.set` and their effect on the handler's `catch` are not modelled.
- The concurrency race between admission and resolve is not modelled as interleaved processes. The model covers one request at a time, plus an arbitrary `Between` change at the re-read. It claims no mutual exclusion.
- `uuidv7()` is an input id. Freshness is a precondition of the lemmas that need it, not a property of the generator.
- The database probe of `setup` (`src/helpers/functions/mysql.ts`) is an input outcome.
- Form and JSON body parsing, `setCookie`, `encodeURIComponent` and `JSON.stringify` are abstracted. The extractor receives the parse outcome, and the cookie holds the envelope itself.
- Assigning the context to `ctx.state.context` is not modelled. Nothing in the core reads it.
- A downstream response whose headers are immutable would make the sentinel throw. Headers are always mutable here.
- The status endpoint's answer is the envelope `Response.json` serializes. The JSON text and the implicit status 200 are not modelled.
- The `sentinel` arguments `pathname` and `status` are used only in the log line and are not parameters of `Apply`.
- Strings.ToLower: lower-cases ASCII letters only. The source's `toLowerCase` also folds other Unicode letters.
