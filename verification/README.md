# fund-data-cache: the cache-and-gate engine in Dafny

`index.js` is a small Express service. It republishes the latest price of a fund
taken from two upstream providers, IHS and Solactive. This project models the
part of it that holds state and makes decisions:

- **The one node-cache instance.** Fund records and the IHS API key share its
  keyspace. A record is keyed by its bare fund code with a TTL of 2 s. The key
  sits under `ihs_apikey` with a TTL of 3500 s.
- **The two per-request gate chains.**
  IHS: `ihs_isAllowed` → `ihs_isCached` → `ihs_isAuthenticated` → handler.
  Solactive: `solactive_isAllowed` → `solactive_isCached` → handler.
- **The normalisation of provider replies.** `*_getlatestfund` keeps the first
  element of a non-empty array and gives `{}` otherwise. `*_getFundData` turns
  `null` into `{}`.
- **Startup and the cron jobs.** Startup authenticates once. On success it
  caches the key and registers one fund job per allow-listed IHS code, firing
  every second, and a key job firing at minutes 0 and 55. On failure the
  process exits.
- **The comma-split allow-lists** `VALID_CODES` and `SOLACTIVE_ISINS`.

How the model is built:

- JavaScript values are the datatype `JsValues.Json`. `undefined` is `None`.
- Time is the process clock in milliseconds. node-cache takes TTLs in seconds
  and serves an entry while `now <= set time + 1000 * ttl`.
- Each request, each job tick and startup is one atomic step at one instant.
- The replies of upstream calls are parameters. The calls a step makes are
  returned as a list, so "no authentication and no fetch happened" is an
  equality on that list.
- The pure logic lives in functions: `Pipeline`, `Schedule` and `Corrected`.
- The class `Service.Server` owns the `TtlCache.NodeCache` object. Its methods
  change the cache in place and are proved to do what those functions say.

The model runs the handlers **as written**. In `index.js` neither route
handler works:

- The IHS handler throws on its first line.
- The Solactive handler caches the fetched record, then fails on an undeclared
  variable and answers `{status:'error'}`.

`Corrected` holds the evidently intended handlers and proves the intended
behaviour of them (see Findings).

Behaviour of the code worth knowing:

- The code starts listening (index.js:305) without waiting for the first
  authentication. So `Server` accepts requests in its `Booting` phase as well.
- A cache hit is any value other than `undefined` **or `null`**, because the
  code compares with loose `!=`.
- The price value is read from the record's `values` property.
- Only IHS codes get scheduled jobs; Solactive funds are fetched only on request.
- Both providers and the API key share one keyspace. A code listed for both
  providers is served from whichever provider's record was cached last. A fund
  code equal to `ihs_apikey` overwrites the key (`Schedule.KeyLostToFundOfSameName`).

## Model

| member | source | states |
|---|---|---|
| `JsValues.Field` | index.js:155-157 | A property read on a non-null record is defined exactly when the record is an object with that field, and then gives that field's value. |
| `AllowList.Split` | index.js:24-25 | `split(',')` gives at least one piece and no piece contains a comma. |
| `AllowList.JoinSplit` | index.js:24 | Joining the pieces with commas gives back the environment string, so splitting loses nothing. |
| `AllowList.SplitJoin` | index.js:24 | Splitting the comma-join of comma-free codes gives back exactly those codes, so each configured code is allowed. |
| `AllowList.CommaCodeNeverAllowed` | index.js:139 | No code that contains a comma passes an allow-list. |
| `TtlCache.Put` | index.js:12 | After `set(key, v, ttl)` the key reads `v` until `ttl` seconds have passed and is absent afterwards. Any previous entry is overwritten. Every other key reads as before. |
| `TtlCache.Sweep` | index.js:12 | The periodic expiry sweep keeps only unexpired entries and never changes what a lookup at that time or later returns. |
| `TtlCache.NodeCache.constructor` | index.js:12 | The cache starts empty. |
| `TtlCache.NodeCache.Set` | index.js:48 | `cache.set` replaces the entry as `Put` says and leaves the clock alone. |
| `TtlCache.NodeCache.Get` | index.js:150 | `cache.get` returns the entry's value while it is unexpired, and `undefined` otherwise. |
| `TtlCache.NodeCache.CheckExpired` | index.js:12 | The periodic check removes exactly the expired entries. |
| `TtlCache.NodeCache.Advance` | index.js:12 | The clock that node-cache compares expiry against moves forward; the entries stay. |
| `Upstream.LatestFund` | index.js:102-107 | The result is the first element of a non-empty array reply, and `{}` for an empty array or any non-array. |
| `Upstream.NonNull` | index.js:166-170 | `getFundData` never yields null: null becomes `{}`, anything else passes unchanged. |
| `Upstream.FundOf` | index.js:164-171 | The record a reply yields is never null. It is the reply's head when that head is a non-null element of an array, and `{}` otherwise. |
| `Upstream.GetFundData` | index.js:196-203 | An awaited `getFundData` resolves exactly when the fetch does, to a non-null record, and otherwise rejects with the fetch's message. |
| `Pipeline.ShapeQuote` | index.js:155-157 | The success body carries the provider and the requested ticker. ISIN comes from `fundSecurityId`, the price's currency from `currency` and its value from `values`, and `timeStamp` is passed through. A field the record lacks is left out of the body, so `{}` gives a body with no record fields. |
| `Pipeline.AllowGate` | index.js:136-146 | A request passes exactly when its code is in the allow-list. Otherwise the answer is 404 `not found`. |
| `Pipeline.CacheGate` | index.js:148-162 | A request is answered from the cache exactly when the cached value is neither undefined nor null, `{}` included. The answer is built from the cached record and the ticker only. |
| `Pipeline.AuthGate` | index.js:114-134 | A truthy cached key is reused with no authenticator call. Otherwise the authenticator is called once. Its key is cached for 3500 s before continuing, or its rejection ends the request with a 400 and an unchanged cache. |
| `Pipeline.TryBlock` | index.js:261-273 | The handler body as written makes one fetch call. A resolved fetch is cached under the code for 2 s and still answered as an error (`cachedData is not defined`). A rejected fetch is answered with its message and caches nothing. |
| `Pipeline.IhsHandler` | index.js:258-274 | With `req.fundname` undefined the handler rejects with a TypeError and touches nothing. With it set, the handler would run the body against Solactive. |
| `Pipeline.SolactiveHandler` | index.js:277-293 | The Solactive handler calls the IHS fetch with an undefined key. A resolved fetch is written under the code with a 2 s TTL, so it is absent after 2 s, no other key changes, and the answer is an error. A rejected one is answered with its message and writes nothing. |
| `Pipeline.IhsRequest` | index.js:258 | IHS route. An unlisted code gets 404 with no calls and no writes. A hit is answered from the cache with no calls. The authenticator is called exactly on a miss with no truthy key. No provider is ever called. The cache changes exactly when the authenticator was called and succeeded: its key is written with the 3500 s TTL. A reused key and every other key are left alone. A miss ends in a 400 or the handler's TypeError. |
| `Pipeline.SolactiveRequest` | index.js:277 | Solactive route. An unlisted code gets 404 and a hit is answered from the cache, both with no calls. A miss never authenticates and makes exactly one IHS fetch with an undefined key. A resolved fetch is cached for 2 s and answered as an error. A rejected fetch leaves the cache unchanged. |
| `Corrected.TryBlockCorrected` | index.js:261-273 | The intended handler body answers with the quote of the record it fetched, and writes that record under the code with a 2 s TTL: served for the next 2 s, absent afterwards, no other key changed. |
| `Corrected.IhsRequestCorrected` | index.js:258-274 | The intended IHS route keeps the 404 and cache-hit short-circuits of the gates. |
| `Corrected.SolactiveRequestCorrected` | index.js:277-293 | The intended Solactive route keeps the gate short-circuits. A miss calls the Solactive fetch with the configured user name. |
| `Corrected.IhsMissRejectsBeforeFetch` | index.js:260 | As written, an IHS miss with a key cached rejects with the TypeError, with no call and no write. |
| `Corrected.IhsCorrectedMissFetches` | index.js:260-264 | As intended, the same miss fetches from IHS with the cached key, caches the record and answers with it. |
| `Corrected.IhsHandlerAsksSolactive` | index.js:260-262 | As written, even with the fund name set, the IHS handler calls the Solactive fetch with the IHS key as the user name. A non-empty `req.fundname` is the name fetched, and an empty one falls back to the route's code. |
| `Corrected.SolactiveMissCachesButFails` | index.js:283-291 | As written, a Solactive miss with a resolved fetch answers an error. The next request within 2 s is a cache hit on the record the failed request stored. |
| `Corrected.CorrectedMissThenHit` | index.js:283-289 | As intended, a Solactive miss answers `Success(q)`. A repeat within 2 s answers `CachedSuccess(q)` with the same quote and no call. |
| `Corrected.IhsCorrectedMissThenHit` | index.js:264-270 | The same for the intended IHS route, whether the key was cached or just obtained. |
| `Corrected.SolactiveMissAsksIhs` | index.js:281 | As written, every Solactive miss makes exactly one IHS fetch, with an undefined key. |
| `Corrected.SolactiveCorrectedMissFetches` | index.js:281-283 | As intended, a Solactive miss calls the Solactive fetch with the configured user name, caches the record and answers with it. |
| `Corrected.ExampleFundServedThenCached` | index.js:258-270 | Worked example on the intended route. Fund ABC with one upstream record: the first request answers ISIN US1234 and price 101.5 after one auth and one fetch. A request 1 s later gets the same quote from the cache while both upstream calls would fail. |
| `Corrected.EmptyReplyCachedAsEmptyRecord` | index.js:184-188 | An empty reply array is cached as `{}`, not treated as an error, and answers the next request without a second fetch. |
| `Schedule.Startup` | index.js:31-80 | Startup exits exactly when the first authentication fails. On success it registers one fund job per listed code, in order. The key is then written with the 3500 s TTL: served for 3500 s, absent afterwards unless rewritten, and nothing else changes. |
| `Schedule.FundTick` | index.js:41-58 | A fund tick passes whatever key is cached, undefined included, to the IHS fetch and never authenticates. A resolved fetch is written with the 2 s TTL: served for 2 s and absent afterwards unless rewritten. A failure changes nothing. No other key changes. |
| `Schedule.KeyTick` | index.js:61-75 | A key tick authenticates once. On success it overwrites the key with the 3500 s TTL: served for 3500 s and absent afterwards unless rewritten. A failure changes nothing. No other key changes. |
| `Schedule.KeyTicksAtMost55MinutesApart` | index.js:61 | The latest key tick at or before any instant is less than 55 minutes (3300 s) back, and no tick falls between them. |
| `Schedule.FundTicksOneSecondApart` | index.js:41 | The latest fund tick at or before any instant is less than one second back. |
| `Schedule.StartupWrites` | index.js:33-48 | The cache after a successful startup is the replay of the one key write it makes, so the timing lemmas' write log starts from a real startup. |
| `Schedule.KeyTickWrites` | index.js:61-75 | A successful key tick on a replayed cache gives the replay of the log with one more key write (3500 s TTL) at the tick's instant. |
| `Schedule.FundTickWrites` | index.js:41-58 | A successful fund tick gives the replay of the log with one more write of the fund record (2 s TTL). A failed tick leaves the replayed cache as it was. |
| `Schedule.CoveredKeyIsCached` | index.js:12 | Assume writes come in time order and every write to a key uses one TTL. Then a key stays cached at `t` if any write to it has a TTL that covers `t`. |
| `Schedule.ApiKeyNeverExpires` | index.js:33-65 | After a successful startup, `ihs_apikey` is cached at every instant, provided every key tick succeeds and only key writes touch it. |
| `Schedule.FundNeverExpires` | index.js:41-48 | From its first successful tick on, a fund stays cached while every tick of its job succeeds. |
| `Schedule.KeyLostToFundOfSameName` | index.js:43-48 | If `ihs_apikey` is an allow-listed code, one fund tick leaves the API key absent 2 s later. |
| `Service.Server.constructor` | index.js:10-13 | The server starts booting, with its configuration and a fresh, empty cache. |
| `Service.Server.Startup` | index.js:31-80 | Startup moves the cache and the phase as `Schedule.Startup` says, registering the jobs in a loop over the codes. |
| `Service.Server.FundJob` | index.js:41-58 | A fund job tick changes the cache as `Schedule.FundTick` says. |
| `Service.Server.KeyJob` | index.js:61-75 | A key job tick changes the cache as `Schedule.KeyTick` says. |
| `Service.Server.IhsIsAllowed` | index.js:136-146 | Answers as `AllowGate` does on the IHS list. |
| `Service.Server.SolactiveIsAllowed` | index.js:205-215 | Answers as `AllowGate` does on the Solactive list. |
| `Service.Server.IhsIsCached` | index.js:148-162 | Answers as `CacheGate` does for provider IHS. |
| `Service.Server.SolactiveIsCached` | index.js:217-231 | Answers as `CacheGate` does for provider Solactive. |
| `Service.Server.IhsIsAuthenticated` | index.js:114-134 | Returns what `AuthGate` does and writes its key to the cache only when it authenticated. |
| `Service.Server.IhsHandle` | index.js:258-274 | Runs the IHS handler as written, as `IhsHandler` says. |
| `Service.Server.SolactiveHandle` | index.js:277-293 | Runs the Solactive handler as written, as `SolactiveHandler` says. |
| `Service.Server.Handle` | index.js:261-273 | Runs the shared handler body, as `TryBlock` says. |
| `Service.Server.IhsRoute` | index.js:258 | A request to the IHS route answers and changes the cache as `IhsRequest` says. |
| `Service.Server.SolactiveRoute` | index.js:277 | A request to the Solactive route answers and changes the cache as `SolactiveRequest` says. |
| `Service.Server.Wait` | index.js:12 | Time passes without changing the entries. |
| `Service.RepeatedSolactiveRequest` | index.js:277-293 | Two requests through the class, half a second apart, after a successful startup. The first answers an error. The second is a cache hit on the record the first one stored, with no upstream call. |

## Findings

| source | as written | input that shows it | evidently intended | confidence | as-written member | corrected member |
|---|---|---|---|---|---|---|
| index.js:260 | Reads `req.fundname.length`, but nothing sets `req.fundname` on this route. Every IHS miss past the auth gate throws before fetching. | GET /ihs/fund/ABC, ABC listed, not cached, key cached | Use `req.params.fundname` | high; not executed | `Corrected.IhsMissRejectsBeforeFetch` | `Corrected.IhsCorrectedMissFetches` |
| index.js:262 | The IHS handler fetches through `solactive_getFundData` and passes the IHS API key as the Solactive user name. | The same request with `req.fundname` set | `ihs_getFundData(fundname, res.locals.apikey)` | high; not executed | `Corrected.IhsHandlerAsksSolactive` | `Corrected.IhsCorrectedMissFetches` |
| index.js:268 | Both handlers (index.js:268 and index.js:287) read the undeclared `cachedData` after `cache.set`. Every miss with a resolved fetch answers `{status:'error'}` although the record was cached. | GET /solactive/fund/X, X listed and not cached, fetch resolves | Build the answer from `data` | high; not executed | `Corrected.SolactiveMissCachesButFails` | `Corrected.CorrectedMissThenHit` |
| index.js:281 | The Solactive handler fetches through `ihs_getFundData` with `res.locals.apikey`, which this route never sets. | GET /solactive/fund/X, X listed and not cached | `solactive_getFundData(fundname, <Solactive user name>)` | medium (which user name was meant); not executed | `Corrected.SolactiveMissAsksIhs` | `Corrected.SolactiveCorrectedMissFetches` |

## Left out

- HTTP plumbing is not modelled. This covers the Express bootstrap and middleware, CORS, the `/` liveness route, the `/fund/:fundname` redirect, the catch-all 404 and error handlers, and `app.listen` (index.js:235-256, 295-307).
- The axios transport of `ihs_authenticateUser`, `ihs_getlatestfund` and `solactive_getlatestfund` is not modelled. Each call is an abstract `Reply`: the reply body, or the rejection message. That message is built from `error.response.data.errorMessage` (index.js:92). When a call gets no HTTP response, reading it throws a TypeError instead, and the handlers still answer with that TypeError's `message` (index.js:272, 291).
- `moment(...)` around `timeStamp` is not modelled. The record's `timeStamp` passes through as it is; `moment(undefined)` would give the current time.
- `AuthFailed400` always carries the authenticator's rejection message, and that is not always what the client gets. index.js:131 answers `res.status(400).json(err)`. A login rejection built at index.js:92 is `{message: ...}` and serialises with its message. A login that gets no HTTP response (network error, DNS failure, time-out) instead rejects with the TypeError thrown while evaluating index.js:92. An Error's `message` is not enumerable, so that 400 is sent with the body `{}`. The model does not tell the two rejections apart.
- Numeric prices are exact `real`s that are never computed with. No floating point is modelled.
- Concurrency is not modelled: every request, job tick and startup is one atomic step at one instant. Upstream latency, interleavings of ticks and requests, concurrent requests and two racing writers are out.
- `Unhandled` records that the IHS handler's promise rejected (index.js:258-260). Express 4 does not handle a rejection of an async handler, so it is an unhandled rejection, and since Node 15 that ends the process by default: the first IHS miss that passes the auth gate can stop the whole server. The model does not capture this. `Service.Server.IhsRoute` keeps its phase after `Unhandled` and the server goes on serving.
- The jobs' `.catch(err => { throw err })` is not modelled. It leaves an unhandled rejection that the surrounding `try` cannot catch, and on current Node versions that can end the process. The model treats a failed tick as changing nothing.
- Not modelled: `process.exit`, console logging and dotenv loading. Neither is a missing `VALID_CODES` or `SOLACTIVE_ISINS`, which would throw at load time. A failed startup is the terminal `Exited` / `Terminated` state.
- Several node-cache features are not modelled: value cloning (values here are immutable), the default `stdTTL` (every call passes a TTL), TTL 0 meaning "never expires" (no call passes it), statistics, events and key limits.
- Cron is modelled only through the fire times it yields. Timezone handling is left out: the minutes are the process's local minutes.
- `Schedule.ApiKeyNeverExpires` and `Schedule.FundNeverExpires` state that a value is cached, not which one. It is the value of the latest write.
