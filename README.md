# lavacake dispatcher, rate limiter, configuration and token check in Dafny

lavacake is an HTTP gateway. It exposes a fixed set of named endpoints, each of which relays
a call to the Hypixel API. This project models the only part with real logic: the server's
`fetch` handler. For each request the handler:

1. derives a client identity from `x-forwarded-for`;
2. refuses the client with 429 when its counter is already at or above the cap;
3. resolves the route name and refuses unknown routes with 404;
4. checks the endpoint's `params` ("all present") and `oneOf` ("at least one present") lists, giving 400;
5. on acceptance only, bumps the client's counter and schedules one decrement `rateLimitExpires` seconds later;
6. runs the endpoint.

Two smaller parts are modelled beside it. The first is the `Config` class: its defaults,
override from a JSON file, environment variables, `save` and the setters. The second is the
start-up check on the API token.

Modules, one per component:

- `Endpoints` models the `Endpoint` descriptor shape and the parameter checks (`Validate`).
- `RateLimiter` holds the counter table and the timers not yet fired. A pending-decay queue on a logical millisecond clock stands in for `setTimeout`. It also defines the invariant the handler keeps: every counter equals the number of its pending decays.
- `Dispatch` holds the per-request functions (`Respond`, `Next`) and the class `Dispatcher`. The class's `Fetch` and `AdvanceTime` methods are proved against those functions. `index.ts` holds an older copy of the same handler with the same logic, so both files share this model.
- `DispatchProperties` states what the handler promises: the short-circuit order, that rejections leave state alone, bursts against the cap, and the sliding decay window.
- `Configuration` models `src/utils/Config.ts`. The object's values form the record `ConfigValues`, and each loader is a pure function over it. `Config` is the class with the setters, `save`'s loop and the loaders that build a fresh object.
- `HypixelApi` models the token check. The regex is an anchored group-by-group matcher, proved equivalent to a position-by-position description.
- `Strings` and `Wrappers` are helpers: `replace` of one character, `startsWith`, `Option` and `Result`.

External inputs become parameters:

- a request is its header value, path and parsed query;
- the JSON file is a parsed object, or `None` when it cannot be read;
- the environment is a map;
- `Number(...)` is a caller-supplied parse function;
- time is advanced explicitly with `AdvanceTime`.

## Model

| member | source | states |
|---|---|---|
| `Strings.RemoveFirst` | src/index.ts:38 | `replace('/', '')` changes nothing when there is no `/` and otherwise removes exactly one character |
| `Strings.RemoveFirstAt` | src/index.ts:38 | the character removed is the first occurrence; the rest of the string is kept on both sides of it |
| `Endpoints.Has` | src/index.ts:42-43 | no contract; `searchParams.has`. Its meaning is stated by `Endpoints.Every`, `Endpoints.Any` and `Endpoints.Validate` |
| `Endpoints.Constrains` | src/index.ts:42-43 | no contract; the `?.length` truthiness test. Its meaning is stated by `Endpoints.Validate` and `Endpoints.AbsentAndEmptyAgree` |
| `Endpoints.Every` | src/index.ts:42 | `every` is true exactly when every listed name is in the query |
| `Endpoints.Any` | src/index.ts:43 | `some` is true exactly when at least one listed name is in the query |
| `Endpoints.Validate` | src/index.ts:42-43 | "Missing parameters" comes exactly when some `params` name is absent, and carries the full `params` list. "Specify one of these" comes exactly when `params` passed, `oneOf` is non-empty and none of its names is present, and carries the full `oneOf` list. Otherwise the request is accepted |
| `Endpoints.AbsentAndEmptyAgree` | src/index.ts:42-43 | an absent list and an empty list (`params: []` in the route modules) impose the same, empty, constraint |
| `RateLimiter.Limited` | src/index.ts:33 | no contract; `rateLimits[ip] >= cap`, with an absent entry comparing false. Its meaning is stated by `DispatchProperties.FirstRequestNeverLimited` and `DispatchProperties.RateLimitShortCircuits` |
| `RateLimiter.Record` | src/index.ts:47-51 | no contract; the falsy reset, the increment and the scheduled decrement. Its meaning is stated by `RateLimiter.RecordEffect` and `RateLimiter.RecordConsistent` |
| `RateLimiter.DelayMs` | src/index.ts:51 | no contract beyond its `nat` result type: `rateLimitExpires * 1000` ms, with a negative delay taken as 0. Its use is stated by `RateLimiter.RecordEffect` and `DispatchProperties.CapOfOneAfterDelay` |
| `RateLimiter.RecordEffect` | src/index.ts:46-52 | an admission resets a falsy entry, so the count goes up by exactly 1 with an absent entry read as 0. No other counter changes, and exactly one decay is queued, due `rateLimitExpires*1000` ms after now |
| `RateLimiter.DueCount` | src/index.ts:49-51 | the timers that fire are exactly the leading queue entries whose due time has been reached |
| `RateLimiter.Decrement` | src/index.ts:49-51 | no contract; the fired callbacks run in order. Its meaning is stated by `RateLimiter.DecrementLevel` |
| `RateLimiter.Fire` | src/index.ts:49-51 | no contract; the due timers fire, oldest first. Its meaning is stated by `RateLimiter.DueCount`, `RateLimiter.DecrementLevel` and `RateLimiter.FireConsistent` |
| `RateLimiter.Advance` | src/index.ts:49-51 | no contract; the clock moves on and what falls due fires. Its meaning is stated by `RateLimiter.AdvanceConsistent`, `RateLimiter.QuietPeriodDrains` and `RateLimiter.IdleAdvanceKeepsLevel` |
| `RateLimiter.DecrementLevel` | src/index.ts:50 | running decays lowers each counter by exactly the number of its decays that ran, with no floor at zero |
| `RateLimiter.CountsNonNegative` | src/index.ts:47-50 | under the handler's invariant no counter is ever negative, even though the decrement itself is unfloored |
| `RateLimiter.RecordConsistent` | src/index.ts:46-52 | an admission keeps the invariant: counter = pending decays for that client, the queue in due order, nothing due later than one delay from now |
| `RateLimiter.FireConsistent` | src/index.ts:49-51 | firing due timers keeps the invariant |
| `RateLimiter.AdvanceConsistent` | index.ts:40-42 | letting time pass keeps the invariant |
| `RateLimiter.QuietPeriodDrains` | src/index.ts:49-51 | after one full delay with no new admission, no timer is left and every counter is 0 |
| `RateLimiter.AbsentClientIsQuiet` | src/index.ts:46-51 | under the invariant, a client with no entry has no pending decay, because every decay is scheduled by an admission that created the entry |
| `RateLimiter.IdleAdvanceKeepsLevel` | src/index.ts:49-51 | while none of a client's decays falls due, time passing leaves its counter and its entry exactly as they were and keeps its decays pending, whatever fires for other clients |
| `Dispatch.Envelope` | src/index.ts:33-43 | every rejection body has `success: false`. The code is 429 exactly for the rate limit, with "You are being ratelimited", and 404 exactly for an unknown route, with "Not found". It is 400 exactly for the two parameter errors: "Missing parameters" with the endpoint's full `required` list, or "Specify one of these parameters" with its full `oneOf` list. No body carries a list it does not belong to. A run has no body of the handler's own |
| `Dispatch.ClientIdentity` | src/index.ts:28-32 | the identity is never empty, so the "header is required" throw cannot happen. It is the header value when that value is non-empty, and `0.0.0.0` otherwise |
| `Dispatch.RouteKey` | src/index.ts:38 | the route key is never empty: an empty result of the replace becomes `root` |
| `Dispatch.Route` | src/index.ts:38-43 | no contract; the route lookup and the two parameter checks. Its meaning is stated by `DispatchProperties.NotFoundExactlyWhenUnregistered`, `DispatchProperties.RequiredReportedFirst` and `DispatchProperties.RunOnlyOnAcceptance` |
| `Dispatch.Respond` | src/index.ts:29-43 | no contract; the rate-limit check in front of `Route`. Its meaning is stated by `DispatchProperties.RateLimitShortCircuits`, `DispatchProperties.FirstRequestNeverLimited` and `DispatchProperties.DisabledBypassesLimiter` |
| `Dispatch.Next` | src/index.ts:46-52 | no contract; only an admitted request with rate limiting on changes the state. Its meaning is stated by `DispatchProperties.RejectionsKeepState`, `DispatchProperties.AdmissionCountsOnce` and `DispatchProperties.NextConsistent` |
| `Dispatch.Replay` | src/index.ts:26-56 | one response per request, for requests handled with no time passing in between. Its meaning is stated by `DispatchProperties.BurstFromCount` and `DispatchProperties.RunOnlyOnAcceptanceAt` |
| `Dispatch.TimedReplay` | src/index.ts:26-56 | one response per request, for requests that each arrive after their own wait. Its meaning is stated by `DispatchProperties.BurstWithinWindow` |
| `Dispatch.Dispatcher.constructor` | src/index.ts:6 | the counter table starts empty, with no timers |
| `Dispatch.Dispatcher.Fetch` | src/index.ts:26-56 | the response is `Respond` of the counters before the call. The new counters and queue are `Next` of the old ones. The invariant is kept |
| `Dispatch.Dispatcher.CountAdmission` | index.ts:37-43 | the table and queue become `Record` of the old ones: reset if falsy, add 1, schedule one decrement |
| `Dispatch.Dispatcher.AdvanceTime` | src/index.ts:49-51 | after `dt` ms the state is `Advance` of the old state: the due decays ran, oldest first. The invariant is kept |
| `DispatchProperties.RateLimitShortCircuits` | index.ts:20-24 | a client whose count is at or above the cap gets 429 before any route lookup or validation, and no counter or timer changes |
| `DispatchProperties.FirstRequestNeverLimited` | src/index.ts:33 | a client with no entry is never refused by the cap check, even with cap 0. An entry that has decayed to 0 is refused by a cap of 0 |
| `DispatchProperties.DisabledBypassesLimiter` | src/index.ts:29-52 | with rate limiting off the counters are neither read nor written. Only 404, 400 or the endpoint's run can result |
| `DispatchProperties.RouteKeyOfPath` | src/index.ts:38 | for a path starting with `/`, the key is the rest of the path, or `root` for `/` alone |
| `DispatchProperties.RouteKeyDropsFirstSlash` | index.ts:29 | only the first `/` is removed, wherever it is; a path without `/` is its own key |
| `DispatchProperties.NotFoundExactlyWhenUnregistered` | src/index.ts:38-41 | once past the rate-limit check, the response is 404 exactly when the key is not registered. Lookup is exact string equality |
| `DispatchProperties.RequiredReportedFirst` | src/index.ts:42-43 | a request missing a `params` name is refused with the full `params` list, whatever `oneOf` says |
| `DispatchProperties.RunOnlyOnAcceptance` | index.ts:46 | the endpoint runs only when the rate-limit check passed, the route exists and both parameter checks passed. It runs with the request's own query |
| `DispatchProperties.RejectionsKeepState` | src/index.ts:33-43 | a 429, 404 or 400 leaves every counter and timer unchanged |
| `DispatchProperties.AdmissionCountsOnce` | src/index.ts:46-52 | an admitted request raises only its client's counter, by exactly 1, and queues exactly one decay for it |
| `DispatchProperties.NextConsistent` | index.ts:36-43 | every request keeps the counter invariant |
| `DispatchProperties.BurstFromCount` | src/index.ts:33-48 | repeating an acceptable request from a client at count `k`, with no decay in between: request `i` runs exactly when `k + i < cap`, otherwise 429. The count ends at `k` plus the number admitted |
| `DispatchProperties.BurstFromNewClient` | index.ts:24-39 | from a new client, request `i` runs exactly when `i < max(cap, 1)`, otherwise 429. With no decay fired the count is the number admitted, so request number cap+1 is the first refused |
| `DispatchProperties.WindowStep` | src/index.ts:33-51 | one request of a timed burst: after its wait, it is admitted exactly when the client is not at the cap. An admission adds exactly 1 to the client's counter and creates its entry, and none of the client's decays falls due before the burst is over |
| `DispatchProperties.BurstWithinWindow` | src/index.ts:33-51 | the same burst spread over time. The requests come from one client whose counter stands at `k`, span less than the decay delay, and none of the client's earlier decays falls due. Then request `i` runs exactly when `k + i < cap`, otherwise 429, and the count ends at `k` plus the number admitted |
| `DispatchProperties.BurstWithinWindowFromNewClient` | src/index.ts:33-51 | a new client sending requests over any span shorter than the decay delay: request `i` runs exactly when `i < max(cap, 1)`, otherwise 429. The count is the number admitted, so after `n <= cap` admissions in the window it is `n`, and request number cap+1 is refused |
| `DispatchProperties.CapOfTwo` | src/index.ts:29-55 | with cap 2, three immediate requests get: run, run, 429 |
| `DispatchProperties.RunOnlyOnAcceptanceAt` | src/index.ts:55 | in any sequence of requests, each response that runs an endpoint is that request's own route-and-validation outcome |
| `DispatchProperties.AdmittedAfterQuietPeriod` | src/index.ts:46-51 | after one full delay with no admission, with a positive cap, the cap check lets any client through again |
| `DispatchProperties.CapOfOneAfterDelay` | index.ts:37-43 | with cap 1 and a 1 s delay: the first request runs, an immediate second is refused, and a second sent 1.5 s later runs |
| `Configuration.Config.constructor` | src/utils/Config.ts:12-19 | a fresh config has hostname `localhost`, port 9753, TLS off, no TLS paths, rate limiting off, `rateLimitExpires` 10 and `rateLimitCap` 10 |
| `Configuration.LoadFileValues` | src/utils/Config.ts:45-63 | an empty path is an error, and so is a file that cannot be parsed. With a non-empty path and a parsed file the load succeeds, and its result is the field-by-field merge of the file over the defaults |
| `Configuration.MergeFile` | src/utils/Config.ts:51-60 | no contract; the nine `??` fallbacks over the defaults. Its meaning is stated by `Configuration.GivenFieldOverrides`, `Configuration.EmptyFileGivesDefaults`, `Configuration.ExtraKeysIgnored` and `Configuration.SaveLoadRoundTrip` |
| `Configuration.EmptyFileGivesDefaults` | src/utils/Config.ts:51-60 | a file where every field is absent or `null` gives the defaults (`??` falls back on both) |
| `Configuration.ExtraKeysIgnored` | src/utils/Config.ts:38-39 | keys other than the nine fields do not change the result |
| `Configuration.GivenFieldOverrides` | src/utils/Config.ts:52-60 | for each of the nine fields, read under its file key: when the file gives the key a non-null value, the field is that value; when the key is absent or `null`, the field is the default's value. Each field depends only on its own key |
| `Configuration.EnvironmentValues` | src/utils/Config.ts:72-81 | no contract; the nine environment fallbacks. Its meaning is stated by `Configuration.EnvironmentFlags`, `Configuration.EmptyEnvironmentValue` and `Configuration.EmptyEnvironmentGivesDefaults` |
| `Configuration.EnvironmentFlags` | src/utils/Config.ts:75-79 | `TLS_ENABLED` and `RATE_LIMIT_ENABLED` turn their flag on exactly when their value is the string `true`; any other value, unset or empty, leaves it off |
| `Configuration.EmptyEnvironmentValue` | src/utils/Config.ts:73-81 | an empty value counts as unset for every variable except `HOSTNAME`. An empty `HOSTNAME` is kept, and an unset one gives `localhost` |
| `Configuration.EmptyEnvironmentGivesDefaults` | src/utils/Config.ts:65-84 | with none of the nine variables set, the defaults result whatever else is in the environment |
| `Configuration.LoadValues` | src/utils/Config.ts:28-35 | an empty path is an error. Otherwise the file is used when it exists and the environment when it does not |
| `Configuration.DefaultLoad` | src/index.ts:8 | the start-up call `Config.load()` takes the default path `config.json`, so it never fails for a missing path. It reads the file when that exists and the environment otherwise |
| `Configuration.Renamed` | src/utils/Config.ts:98-105 | no contract; `save`'s loop over a prefix of the own properties. Its meaning is stated by `Configuration.RenamedOwnProperties` and `Configuration.Config.Save` |
| `Configuration.RenamedOwnProperties` | src/utils/Config.ts:98-105 | `save`'s loop turns every own `_`-property into the same name without its first `_` |
| `Configuration.SavedKeys` | src/utils/Config.ts:96-107 | every key `save` writes is one that `loadFile` reads. The three TLS paths are written only when defined, because `JSON.stringify` drops `undefined` |
| `Configuration.SavedServerValues` | src/utils/Config.ts:99-104 | the saved `hostname` and `port` hold the object's values |
| `Configuration.SavedTlsValues` | src/utils/Config.ts:99-104 | the saved `tlsEnabled` and TLS paths hold the object's values |
| `Configuration.SavedRateLimitValues` | src/utils/Config.ts:99-104 | the saved rate-limit fields hold the object's values |
| `Configuration.SaveLoadRoundTrip` | src/utils/Config.ts:91-107 | loading the file that `save` wrote gives back exactly the saved configuration |
| `Configuration.Config.LoadFile` | src/utils/Config.ts:45-63 | builds a fresh object whose values are `LoadFileValues`, or reports the same error |
| `Configuration.Config.LoadEnvironmentVariables` | src/utils/Config.ts:71-84 | builds a fresh object whose values are those read from the environment |
| `Configuration.Config.Load` | src/utils/Config.ts:28-35 | builds a fresh object whose values are `LoadValues`, or reports the same error |
| `Configuration.Config.Save` | src/utils/Config.ts:91-108 | an empty path is an error. Otherwise the loop writes exactly the renamed, defined properties, and the object is unchanged |
| `Configuration.Config.SetRateLimitEnabled` | src/utils/Config.ts:146-148 | only `rateLimitEnabled` changes, to the given value |
| `Configuration.Config.SetRateLimitExpires` | src/utils/Config.ts:150-152 | only `rateLimitExpires` changes, to the given value |
| `Configuration.Config.SetRateLimitCap` | src/utils/Config.ts:154-156 | only `rateLimitCap` changes, to the given value |
| `HypixelApi.CheckToken` | src/utils/hypixelApi.ts:1-5 | start-up succeeds exactly when `API_TOKEN` is set and is an accepted token, and then yields that token |
| `HypixelApi.TokenAccepted` | src/utils/hypixelApi.ts:3 | no contract; a non-empty token that matches the pattern. Its meaning is stated by `HypixelApi.TokenAcceptedIffUuidShaped`, `HypixelApi.EmptyTokenRejected` and `HypixelApi.CheckToken` |
| `HypixelApi.MatchesUnrolled` | src/utils/hypixelApi.ts:2 | the anchored pattern is 36 characters: hex runs of 8, 4, 4, 4 and 12, separated by `-` |
| `HypixelApi.TokenAcceptedIffUuidShaped` | src/utils/hypixelApi.ts:2-3 | a token is accepted exactly when it is 36 characters with `-` at 8, 13, 18 and 23, and a hex digit of either case elsewhere. Nothing may come before or after |
| `HypixelApi.EmptyTokenRejected` | src/utils/hypixelApi.ts:1-3 | an unset or empty `API_TOKEN` is refused |
| `HypixelApi.AcceptedTokenLayout` | src/utils/hypixelApi.ts:2 | an accepted token is 36 characters, has dashes at 8, 13, 18 and 23, and hex digits at every other position |

## Left out

- Server and TLS setup are not modelled. This covers `Bun.serve`, the TLS file loading, the "certificate and key path required" check and the start-up log (src/index.ts:10-24, 57-60). The `Config.load()` call at line 8 is modelled by `Configuration.DefaultLoad`. The bullet also covers the unused `rateHypixel` object and the fixed port of index.ts (lines 13-16). The `Config.load()` call at index.ts:11 is the same start-up load, modelled by `Configuration.DefaultLoad`. All of it is transport plumbing.
- Real timers are replaced by a logical clock. Each `setTimeout` becomes a queued decay, and time advances only through `AdvanceTime`. `rateLimitExpires * 1000` is integer arithmetic. A negative delay is taken as 0. Hosts differ on that point, and on delays above 2^31-1 ms, which are not modelled.
- Requests are handled one at a time. JavaScript runs the check-then-increment without interleaving, so concurrency is not modelled.
- The endpoint `run` bodies, `hypixelApi.get`, `getUUID` and `Res` are not modelled. They are network relays and JSON serialisation. An endpoint's `run` is an opaque handler name, and a run is the outcome `Ran(endpoint, query)`.
- The routes registry (`./routes`) is not part of this model. `endpoints` is a map from route name to descriptor. Names inherited from `Object.prototype` (such as `constructor`) are not modelled.
- URL parsing (`new URL(req.url)`) is not modelled. A request carries its pathname and its parsed query directly.
- File and environment I/O is not modelled. `Bun.file().exists()`, `.json()`, `Bun.write`, `JSON.stringify` and `process.env` become inputs: an existence flag, the parsed object (`None` when unreadable or unparseable), a map, and the returned object.
- Numbers are integers. `Number(...)` on an environment string is a caller-supplied function, so NaN and floating point are not modelled.
- Default path arguments are written out. The model's `Config.LoadFile`, `Config.Load` and `Config.Save` always take a path. A call without one corresponds to passing `DefaultPath` (`config.json`, src/utils/Config.ts:28,45,91). JavaScript substitutes the default only for an omitted or `undefined` argument, so an explicit empty string still reaches the "No config path provided" error, as modelled.
- RateLimiter.Limited: a client identity that names an inherited `Object.prototype` member is treated like any other identity. Examples are `constructor`, `toString`, `valueOf` and `__proto__`. The source does not treat them like other identities. On the first admission, `rateLimits[ip]` reads the inherited member. `>= cap` on it is false (src/index.ts:33), and because it is truthy the reset at line 47 is skipped.
  - For `__proto__`, the prototype setter discards the `++` at line 48, so that client is never limited.
  - For the other names, `++` stores `NaN` as an own entry, so the first admission is never counted. If the next admission comes while the first decay is still pending, `!NaN` is true: the entry is reset to 0 and counted as 1. The counter then runs one below the client's pending decays. The client can be admitted cap + 1 times within one delay, and the counter ends at -1 once every decay has fired. If the first decay fires first, `NaN - 1` stays `NaN`, and the counter matches the pending decays again from the next admission on.
  - For such identities the source breaks the invariant "counter = pending decays". The following members describe the source only for identities that are not such names: `RateLimiter.Record`, `RateLimiter.RecordEffect`, `RateLimiter.RecordConsistent`, `RateLimiter.CountsNonNegative` and `RateLimiter.QuietPeriodDrains`; `Dispatch.Respond`, `Dispatch.Next` and `Dispatch.Dispatcher.Fetch`; and `DispatchProperties.RateLimitShortCircuits`, `DispatchProperties.AdmissionCountsOnce`, `DispatchProperties.NextConsistent`, `DispatchProperties.BurstFromCount`, `DispatchProperties.BurstFromNewClient`, `DispatchProperties.BurstWithinWindow`, `DispatchProperties.BurstWithinWindowFromNewClient`, `DispatchProperties.CapOfTwo`, `DispatchProperties.AdmittedAfterQuietPeriod` and `DispatchProperties.CapOfOneAfterDelay`.
  - Modelling these identities would need JavaScript's prototype chain and `NaN` arithmetic.
- The getters are plain field reads. They appear as `Config.Values()`.
- `Configuration.LoadFileValues`: requires every field key in the file to be `null`, absent, or of the field's declared type. JavaScript would store a value of any type, which a typed field cannot hold. `Configuration.MergeFile`, `Configuration.LoadValues`, `Configuration.Config.LoadFile` and `Configuration.Config.Load` carry the same requirement.
- A decay on a client with no entry would yield `NaN` in JavaScript (`undefined - 1`). The model reads the missing entry as 0 here instead. The invariant shows such a decay cannot happen, because every pending decay has its entry.
