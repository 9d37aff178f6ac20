# Cache manager model

A Dafny model of the server's in-process cache manager (`server/cache-manager.ts`).
The manager holds three keyed stores:

- the **query cache**, whose entries carry their own time-to-live (one hour by default);
- the **session cache**, whose entries all share a fixed 24-hour time-to-live;
- the **temporary-data cache**, whose entries all share a fixed 2-hour time-to-live.

On top of the stores it keeps cumulative cleanup statistics and a periodic cleanup timer.
An entry expires only when its age is strictly greater than its time-to-live.
Expiry happens in two ways: the full cleanup sweeps all three stores, and a query read expires its own entry lazily.
Session and temporary reads never check the age of what they return.

The manager is an immutable record `Manager<T>` of three `map<string, …>` stores, the `CacheStats` record, and a `running` flag.
The flag stands for "the cleanup interval is armed".
The payload type is the parameter `T`.
Every public method is a pure function from the state, the clock readings it takes and its arguments to the next state and its result.
`GetSession`, `GetTemporaryData` and `GetStats` return only their result, so they cannot modify the manager.

Modules:

- `Wrappers` (`entries.dfy`): the `Option` type standing for the source's `null`.
- `CacheEntries` (`entries.dfy`): entry types, the TTL constants and the single `Expired` test.
- `Sweep` (`sweep.dfy`): the sweeps. Each is stated as a filter of its store (`LiveQueries`, `LiveEntries`). Each is also written as a key-by-key loop that deletes and counts, mirroring the source's `forEach`/`delete` (`CleanExpiredQueries`, `CleanExpiredEntries`), and proved to leave exactly the filter.
- `CacheManager` (`cache_manager.dfy`): the facade operations.
- `CacheProperties` (`cache_properties.dfy`): lemmas that relate several operations, plus three end-to-end scenarios.
- `CacheHistory` (`history.dfy`): arbitrary sequences of public calls, and the statistics invariants over them.

Clock and memory readings are explicit arguments.
Times are integer milliseconds, as `Date.now()` returns them.
The source reads the clock separately in each sweep and again for `lastCleanup`.
So `PerformFullCleanup` takes a `CleanupReadings` record holding each sweep's instant, the finishing instant, and the two memory readings.
`AtInstant` builds the readings of a cleanup that happens within one clock instant.
No ordering between clock readings is assumed: a clock that goes backwards just yields a negative age, and such an entry is live whenever its TTL is not negative.

Three points of the code shape the model:

- Only `getQuery` expires lazily; `getSession` and `getTemporaryData` return stored payloads of any age (`GetterAsymmetry`).
- Only query entries store a TTL. Session and temporary entries carry only payload and timestamp, and the sweep supplies the fixed TTL.
- `lastCleanup` holds a `Date`, modelled here as its millisecond value.

## Model

| member | source | states |
|---|---|---|
| CacheEntries.QueryTtl | server/cache-manager.ts:127 | an omitted query TTL means 3,600,000 ms; a supplied one is used as given |
| Sweep.LiveQueries | server/cache-manager.ts:66-80 | the query sweep keeps exactly the entries whose age at the sweep instant is at most their own TTL, unchanged |
| Sweep.LiveEntries | server/cache-manager.ts:82-116 | the session and temporary sweeps keep exactly the entries whose age is at most the store's fixed TTL, unchanged |
| Sweep.CleanExpiredQueries | server/cache-manager.ts:66-80 | visiting each key once and deleting expired entries leaves exactly the live filter; the deletion count is the number of entries dropped |
| Sweep.CleanExpiredEntries | server/cache-manager.ts:82-116 | the same for the fixed-TTL sweeps of the session and temporary stores |
| Sweep.LiveQueriesLater | server/cache-manager.ts:66-80 | a query sweep followed by a later one leaves what the later one alone leaves |
| Sweep.LiveEntriesLater | server/cache-manager.ts:82-116 | a fixed-TTL sweep followed by a later one leaves what the later one alone leaves |
| CacheManager.New | server/cache-manager.ts:11-26 | a new manager has empty stores, zero cleanups, no last cleanup, both memory readings 0 and an armed timer |
| CacheManager.SetQuery | server/cache-manager.ts:127-133 | after the write, the key holds exactly the payload, the write time and the given or default TTL; other keys, stores, stats and timer are unchanged |
| CacheManager.GetQuery | server/cache-manager.ts:135-146 | returns the payload iff the key is present and its age is at most its TTL; a present expired key is removed and nothing else is; an absent key or a hit leaves the manager unchanged |
| CacheManager.SetSession | server/cache-manager.ts:149-154 | the key holds exactly the payload and write time; everything else is unchanged |
| CacheManager.GetSession | server/cache-manager.ts:156-159 | returns the stored payload iff the key is present, with no age check |
| CacheManager.SetTemporaryData | server/cache-manager.ts:162-167 | the key holds exactly the payload and write time; everything else is unchanged |
| CacheManager.GetTemporaryData | server/cache-manager.ts:169-172 | returns the stored payload iff the key is present, with no age check |
| CacheManager.PerformFullCleanup | server/cache-manager.ts:38-63 | each store keeps exactly its live entries at its own sweep instant (own TTL, 86,400,000 ms, 7,200,000 ms); the counter rises by one; `lastCleanup` becomes the finishing instant; both memory fields take this run's readings; the timer flag is unchanged |
| CacheManager.GetStats | server/cache-manager.ts:175-188 | the reported sizes are the three store cardinalities, and the cumulative fields are copied from the stats |
| CacheManager.ClearAll | server/cache-manager.ts:191-197 | all three stores become empty; the stats and the timer are untouched |
| CacheManager.Stop | server/cache-manager.ts:200-206 | the timer ends disarmed; on a stopped manager it changes nothing; stores and stats are untouched |
| CacheProperties.QueryOverwrite | server/cache-manager.ts:127-146 | a second write to a key replaces payload, time and TTL, and a read then hits iff the second write is still live |
| CacheProperties.SetQueryOtherKey | server/cache-manager.ts:127-146 | a query write does not change what a read of any other key returns |
| CacheProperties.GetQueryAgreesWithSweep | server/cache-manager.ts:135-146 | a lazy read hits iff a query sweep at the same instant would keep the key |
| CacheProperties.GetQueryInvisibleToSweep | server/cache-manager.ts:135-146 | a lazy read never changes what a query sweep at the same instant leaves |
| CacheProperties.QueryBoundary | server/cache-manager.ts:140 | an entry whose age equals its TTL is returned without change; one millisecond older, it misses and is removed |
| CacheProperties.SweepBoundary | server/cache-manager.ts:66-116 | in all three sweeps an entry whose age equals the TTL survives, and one millisecond older it is evicted |
| CacheProperties.CleanupLeavesOnlyLive | server/cache-manager.ts:38-63 | after a single-instant cleanup every remaining entry is live, so every query read of a present key hits |
| CacheProperties.CleanupTwice | server/cache-manager.ts:38-63 | two cleanups whose sweep instants do not go backwards leave the stores the second alone would leave; the counter rises by two; the second run's readings are kept |
| CacheProperties.CleanupIdempotent | server/cache-manager.ts:38-63 | a second cleanup at the same instant evicts nothing and still counts |
| CacheProperties.GetterAsymmetry | server/cache-manager.ts:135-172 | session and temporary reads return payloads older than their TTL, while a cleanup at that age drops them; a query read at that age misses |
| CacheProperties.SetThenGet | server/cache-manager.ts:149-172 | a session or temporary write is read back under its key at any later time, and reads of other keys are unchanged |
| CacheProperties.ReportedSizesFollowWrites | server/cache-manager.ts:127-188 | a reported store size grows by one on a write of a new key, stays on an overwrite, and the query size drops by one when a lazy read expires an entry |
| CacheProperties.ClearAllEmpties | server/cache-manager.ts:191-197 | after clearing, every read misses, clearing again changes nothing, and a cleanup finds nothing to evict |
| CacheProperties.StopOnlyDisarms | server/cache-manager.ts:200-206 | stopping is idempotent and commutes with every state-changing operation; the stats report is unaffected |
| CacheProperties.ScenarioQueryExpires | server/cache-manager.ts:127-188 | a query with a 100 ms TTL, read 150 ms later, misses, and the reported query size is 0 |
| CacheProperties.ScenarioSessionCleared | server/cache-manager.ts:149-197 | one session gives a reported size of 1; clearing gives 0 and keeps the cleanup counters |
| CacheProperties.ScenarioTwoCleanups | server/cache-manager.ts:38-63 | two cleanups on a new manager report 2 runs and the second run's instant |
| CacheHistory.RunCountsCleanups | server/cache-manager.ts:59 | over any sequence of calls, the counter rises by exactly the number of full cleanups |
| CacheHistory.StatsChangeOnlyByCleanup | server/cache-manager.ts:38-63 | a call sequence without a full cleanup leaves every statistic unchanged |
| CacheHistory.StoppedStaysStopped | server/cache-manager.ts:24-35 | the timer is armed only at construction, so no call re-arms a stopped manager |

## Left out

- The `setInterval` timer firing every 30 minutes is runtime scheduling and is not modelled; only its armed/disarmed state (`running`) is. A periodic run is `PerformFullCleanup` applied at the tick's instant.
- Cleanup runs never overlap because `performFullCleanup` is synchronous on JavaScript's single event loop, so there is no concurrency to model.
- The `SIGTERM`/`SIGINT` handlers and the singleton export are process lifecycle glue. They only call `stop`.
- `process.memoryUsage()` and its division into megabytes are host measurement and floating point. The readings are opaque integer arguments.
- The `global.gc` hint after a cleanup and after `clearAll` is a foreign call with no effect on the stores. It is modelled as a no-op.
- The `log` calls and the per-sweep deletion counts they print are not modelled as output. The counts are only the `cleaned` out-parameters of the sweep loops.
- CacheManager.PerformFullCleanup: `totalCleanups` is an unbounded `nat`. The source's JavaScript number loses integer precision beyond 2^53 runs, which is not modelled.
- CacheManager.GetQuery: a stored payload that is itself `null` or `undefined` reads the same as a miss in the source. The model's `Option` tells the two apart.
- CacheManager.GetSession: the same holds for a stored `null` or `undefined` session payload.
- CacheManager.GetTemporaryData: the same holds for a stored `null` or `undefined` temporary payload.
- CacheManager.SetQuery: the source accepts any JavaScript number as the TTL, including fractions and `NaN`. The model takes an integer or nothing.
- The admin page's polling and `formatUptime` display formatting are UI code outside the cache manager.
- The production migration script and the auth-session repair script are database I/O and console output, outside the cache manager.
