# Cache-fronted data service, modelled in Dafny

This project models the core of a small Flask demonstration service: a
Redis-backed `CacheService` that never raises, the `/api/data` endpoint that
reads through it, and the health, liveness and readiness endpoints.

- `outcomes.dfy`: `Option` and `Outcome` (`Ok` / `Fail`). Every call into the
  Redis client or the JSON codec takes an `Outcome` as an input, so each
  `except` branch can be reached.
- `json.dfy`: the JSON-compatible values the service handles. `Null` is
  Python's `None`. `Truthy` is Python truthiness. `Field` is dict lookup.
- `http.dfy`: a response as `(body, status)`.
- `backend.dfy`: the Redis database as a map from key to (string value,
  expiry). Time is an explicit `now` in seconds. A key is visible while
  `now` is before its deadline. The stored string is either `Encoded(doc)`
  (text that `json.loads` turns into `doc`) or `Undecodable(text)` (text it
  rejects, the empty string included).
- `cache_service.dfy`: the client. `Conn` is `Connected | Disconnected`.
  Each operation is a pure function returning `Reply(result, store)`.
- `api.dfy`: `get_data`, `echo` and `index`.
- `health.dfy`: `health_check`, `readiness_check` and `liveness_check`.
- `server.dfy`: the running process. It holds two independent handles, one
  built by the `/api` routes and one by the health routes, over a single
  database. It handles a sequence of timed requests.

Behaviour worth noting:
- The data endpoint tags a freshly generated answer `"database"`.
- A hit requires the cached value to be truthy (`if cached_data:`). A cached
  `[]`, `{}`, `0`, `""` or `null` is treated as a miss and overwritten.
- `get` cannot tell a stored JSON `null` from a miss. Both are `None`, so the
  model's `Get` returns `Json` with `Null` for both.
- The readiness check is named `"redis"`.
- `CACHE_TTL` is never read. Both `set`'s default ttl and the endpoint's ttl
  are the literal 300 (`CacheService.DefaultTtl`, the default of `Set`'s
  `ttl` parameter, and `Api.SampleTtl`).
- The health routes and the data routes use different `CacheService`
  objects. When only the health routes' handle is absent, readiness reports
  503 whatever the ping does while data is served from the cache. When only
  the data routes' handle is absent, readiness reports 200 while a faultless
  data request is computed although a live copy is cached
  (`Server.HandlesDisagree`). One shared handle could produce neither
  (`Server.SharedHandleAgrees`).

Never raising is structural: every operation is a total function. Every
failure path is an ordinary result value.

## Model

| member | source | states |
|---|---|---|
| CacheService.New | app/services/cache_service.py:13-25 | The handle is present exactly when building the Redis client did not raise; otherwise it is absent. |
| CacheService.Get | app/services/cache_service.py:27-46 | Never changes the database. With no handle, a failing read, a missing or expired key, or an undecodable or empty value, the answer is None. A non-None answer is exactly the document the live key holds. |
| CacheService.Set | app/services/cache_service.py:48-68 | Answers True exactly when the handle exists, serialisation and SETEX succeed, and the ttl is positive. On True the key is overwritten with the value, expiring at now+ttl, and nothing else changes. On False the database is unchanged. |
| CacheService.Delete | app/services/cache_service.py:70-87 | Answers True exactly when the handle exists and the call succeeds, whether or not the key existed. After success the key is gone. Every other key is unchanged, and no key is added. |
| CacheService.CheckConnection | app/services/cache_service.py:89-103 | Answers True exactly when the handle exists and PING succeeds. It never changes the database. |
| CacheService.SetThenGet | app/services/cache_service.py:62-65 | After a successful set, every successful get of that key before the ttl runs out returns the stored value. |
| CacheService.SetThenExpire | app/services/cache_service.py:64 | Once the ttl of a successful set has run out, get answers None. |
| CacheService.SetLeavesOtherKeys | app/services/cache_service.py:63-64 | A set of one key does not change what get answers for any other key. |
| CacheService.LastWriteWins | app/services/cache_service.py:64 | Of two successful sets to one key, at any two times and with any ttls, a successful get returns the second value until the second ttl runs out. |
| CacheService.SetDefaultTtl | app/services/cache_service.py:48 | A successful set that gives no ttl stores exactly the value at that key with expiry now+300, and changes no other key. |
| CacheService.DeleteThenGet | app/services/cache_service.py:82-84 | After a successful delete, get of that key answers None. |
| CacheService.DisconnectedIsInert | app/services/cache_service.py:36-96 | With no handle, get gives None and set, delete and check_connection give False, whatever the backend would do. None of them changes the database. |
| Json.FalsyValues | app/routes/api.py:45 | A value fails `if cached_data:` exactly when it is None, False, 0, "", [] or {}. |
| Api.CachedSample | app/routes/api.py:44-45 | There is a cached sample exactly when a connected, faultless get of "sample_data" returns a truthy value, and the sample is that value. |
| Api.Item | app/routes/api.py:56-58 | A record whose "id", "name" and "value" are the given ones. |
| Api.SampleData | app/routes/api.py:54-60 | The generated dataset is truthy. Its "items" are three records with ids 1, 2, 3, names "Item 1" to "Item 3" and values 100, 200, 300. |
| Api.DataBody | app/routes/api.py:47-50 | The body's "data" is the given data and its "source" is the given tag. |
| Api.GetData | app/routes/api.py:35-68 | Always 200. A connected, faultless read of a truthy live value at "sample_data" is answered with exactly that value from "cache", with no write. Otherwise the three-item dataset is answered from "database", and "sample_data" is written with ttl 300 when the handle exists and the write succeeds. Only "sample_data" can change. |
| Api.Echo | app/routes/api.py:74-86 | Always 200. The request body comes back unchanged under "echo". |
| Api.Index | app/routes/api.py:15-29 | Always 200 with version "1.0.0". |
| Api.WriteOutcomeInvisible | app/routes/api.py:63-68 | The response is identical whether the miss's write succeeded or failed. |
| Api.MissThenHit | app/routes/api.py:44-63 | After a miss whose write succeeded, a faultless request within 300 seconds answers from "cache" with the identical data. |
| Api.DeleteThenMiss | app/routes/api.py:44-68 | After a successful delete of "sample_data", the next request answers the generated dataset from "database". |
| Api.ComputeHitDeleteCompute | app/routes/api.py:41-68 | With the key initially absent, three requests answer from "database", then "cache", then "database" again, with the same dataset each time. The delete comes between the second and third. |
| Health.HealthCheck | app/routes/health.py:12-22 | Always 200 with status "healthy". It consults no dependency. |
| Health.LivenessCheck | app/routes/health.py:46-54 | Always 200 with alive true. It consults no dependency. |
| Health.All | app/routes/health.py:36 | `all(...)` is true exactly when no element is false. |
| Health.Checks | app/routes/health.py:32-34 | There is exactly one check, "redis". It passes exactly when the handle exists and PING succeeds. |
| Health.ReadinessCheck | app/routes/health.py:26-42 | The body's "ready" is whether the connection check passed. "checks" is exactly {"redis": that result}. The status is 200 exactly when ready, and 503 otherwise. |
| Health.Values | app/routes/health.py:36 | `checks.values()` has one entry per check, in order, each that check's result. |
| Health.ChecksJson | app/routes/health.py:41 | The "checks" object has one member per check, in order, each the check's name with its result. |
| Health.ReadyIffEveryCheck | app/routes/health.py:36 | For any dict of checks, `all(checks.values())` holds exactly when every check passed. |
| Health.DisconnectedNeverReady | app/routes/health.py:32-42 | With no handle, readiness is {ready: false, checks: {redis: false}} with 503, whatever the database holds. |
| Server.Boot | app/routes/api.py:9 | The two handles come from two constructions that succeed or fail independently, over one database. |
| Server.Handle | app/__init__.py:19-21 | Routing keeps both handles. Only the data route writes. Every route but readiness answers 200. |
| Server.RunKeepsHandles | app/services/cache_service.py:15-25 | No sequence of requests changes either handle. A handle that failed to connect stays absent, since there is no reconnect path. |
| Server.OnlyReadinessFails | app/routes/health.py:37-42 | In any sequence of requests, every response other than readiness has status 200. |
| Server.DisconnectedApiAlwaysComputes | app/routes/api.py:44-68 | With no data handle, no sequence of requests writes the database. Every data request answers the generated dataset from "database". |
| Server.WarmCacheServesRun | app/routes/api.py:44-50 | While the dataset is cached and live, every faultless data request is answered from "cache" with it, and the run writes nothing. |
| Server.ColdStartThenWarm | app/routes/api.py:44-66 | Starting without a truthy cached dataset, a first request that writes successfully computes the dataset. Every later faultless data request within 300 seconds is answered from "cache". |
| Server.HandlesDisagree | app/routes/health.py:8 | There is a state in which the data route answers from "cache" while readiness answers 503 for every ping outcome. There is also one in which a live dataset is cached and readiness answers 200, yet a faultless data request answers from "database". |
| Server.SharedHandleAgrees | app/routes/api.py:9 | If both routes used one handle, a "cache" answer to a faultless data request, whatever value it carries, would imply readiness 200 on a good ping. Readiness 200 with a live truthy cached value would imply that a faultless data request answers that value from "cache". |

## Left out

- Redis wire protocol, connection pooling and timeouts. Each backend call is reduced to an `Outcome` input.
- `json.dumps` / `json.loads` text. A stored string is classified by what `json.loads` makes of it. `encoding = Fail` stands for a value `json.dumps` rejects. That is either a value outside `Json` (sets, custom objects, circular structures), an integer longer than Python's int/str conversion limit, or nesting deeper than the recursion limit.
- CacheService.Set: a transport failure after the server has already applied `SETEX` is not modelled. Every failed call leaves the database unchanged.
- CacheService.Set: Redis refuses a `SETEX` whose ttl is not positive. This is the server's behaviour, not something the Python code checks. Any other refusal by the server, such as an expire time too large for its 64-bit millisecond clock, is not derived from the ttl: it is modelled only as `io = Fail`.
- Floating-point JSON numbers are not modelled: `Json` numbers are integers.
- CacheService.SetThenGet: `Json` admits objects with repeated keys, which no Python dict has. For such a value the model's round trip returns it unchanged, whereas `json.loads` would keep only the last occurrence of each key. The round-trip lemmas are exact only for values without repeated keys. They are also exact only for values Python can encode and decode: an integer beyond the int/str conversion limit, or nesting beyond the recursion limit, makes `json.dumps` raise. The model leaves that failure to the free `encoding` input rather than deriving it from the value.
- Logging calls are not modelled: they have no effect on results.
- Metrics decorators (`app/utils/metrics.py`) are not modelled: they are Prometheus counters and wall-clock timing around the handlers.
- Configuration loading (`app/config.py`) is left out: host, port and database index only choose where the client connects, and `CACHE_TTL` is never read.
- Flask wiring (`app/__init__.py`, `app/main.py`) is left out: only the routing it sets up appears, as `Server.Handle`.
- Api.Echo: takes the already parsed body. A body that `request.get_json()` (app/routes/api.py:80) rejects ends in Flask's 400/415 answer, and that path is not modelled.
- Concurrency: requests are handled one at a time. Racing writes, and reads that race a write, are not modelled.
- Redis's own lazy or active removal of expired keys is not modelled: an expired entry stays in the map but reads as absent, which is the same observable behaviour.
