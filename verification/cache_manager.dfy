/**
 The cache manager facade: three keyed stores, cumulative cleanup statistics and the
 running flag of the periodic cleanup timer, with every public operation written as
 a pure function from the current state (and the clock readings the operation takes)
 to the next state and its result.
 */
module CacheManager {

  import opened Wrappers
  import opened CacheEntries
  import opened Sweep

  /** Cumulative statistics; `lastCleanup` is `None` until the first full cleanup. */
  datatype CacheStats = CacheStats(
    totalCleanups: nat,
    lastCleanup: Option<int>,
    memoryBefore: int,
    memoryAfter: int)

  /** The manager: the three stores, the statistics, and whether the cleanup
      timer is armed. */
  datatype Manager<T> = Manager(
    queries: map<string, QueryEntry<T>>,
    sessions: map<string, Entry<T>>,
    temporary: map<string, Entry<T>>,
    stats: CacheStats,
    running: bool)

  /** What `getStats` reports: the cumulative statistics plus the live sizes of
      the three stores and a fresh memory reading. */
  datatype StatsSnapshot = StatsSnapshot(
    totalCleanups: nat,
    lastCleanup: Option<int>,
    memoryBefore: int,
    memoryAfter: int,
    queryCacheSize: nat,
    sessionCacheSize: nat,
    temporaryDataSize: nat,
    currentMemoryUsage: int)

  /** The clock and memory readings one full cleanup takes, in the order it takes
      them: memory before, one clock reading per sweep, memory after, and the
      instant recorded as the last cleanup. */
  datatype CleanupReadings = CleanupReadings(
    memoryBefore: int,
    queryNow: int,
    sessionNow: int,
    temporaryNow: int,
    memoryAfter: int,
    finishedAt: int)

  /** Readings of a cleanup that happens within a single clock instant. */
  function AtInstant(now: int, memoryBefore: int, memoryAfter: int): CleanupReadings
  {
    CleanupReadings(memoryBefore, now, now, now, memoryAfter, now)
  }

  /** A freshly constructed manager: empty stores, zeroed statistics, timer armed. */
  function New<T>(): (m: Manager<T>)
    ensures m.queries == map[] && m.sessions == map[] && m.temporary == map[]
    ensures m.stats == CacheStats(0, None, 0, 0)
    ensures m.running
  {
    Manager(map[], map[], map[], CacheStats(0, None, 0, 0), true)
  }

  /** `setQuery`: stores `data` under `key` at `now` with the caller's
      time-to-live, or the one-hour default when `ttl` is omitted, replacing any
      earlier entry under `key`; nothing else changes. */
  function SetQuery<T>(m: Manager<T>, now: int, key: string, data: T, ttl: Option<int>): (m': Manager<T>)
    ensures key in m'.queries
    ensures m'.queries[key].data == data && m'.queries[key].timestamp == now
    ensures ttl.None? ==> m'.queries[key].ttl == 3_600_000
    ensures ttl.Some? ==> m'.queries[key].ttl == ttl.value
    ensures m'.queries.Keys == m.queries.Keys + {key}
    ensures forall k :: k in m.queries && k != key ==> m'.queries[k] == m.queries[k]
    ensures m'.sessions == m.sessions && m'.temporary == m.temporary
    ensures m'.stats == m.stats && m'.running == m.running
  {
    m.(queries := m.queries[key := QueryEntry(data, now, QueryTtl(ttl))])
  }

  /** `getQuery`: the payload under `key` when it is present and not expired at
      `now`. A present but expired entry is deleted, and only that entry; a read
      of an absent or live key changes nothing. */
  function GetQuery<T>(m: Manager<T>, now: int, key: string): (r: (Manager<T>, Option<T>))
    ensures r.1.Some? <==> key in m.queries && !Expired(now, m.queries[key].timestamp, m.queries[key].ttl)
    ensures r.1.Some? ==> r.1.value == m.queries[key].data
    ensures key in m.queries && Expired(now, m.queries[key].timestamp, m.queries[key].ttl) ==>
              r.0.queries.Keys == m.queries.Keys - {key}
    ensures forall k :: k in r.0.queries ==> k in m.queries && r.0.queries[k] == m.queries[k]
    ensures r.1.Some? || key !in m.queries ==> r.0 == m
    ensures r.0.sessions == m.sessions && r.0.temporary == m.temporary
    ensures r.0.stats == m.stats && r.0.running == m.running
  {
    if key !in m.queries then
      (m, None)
    else
      var cached := m.queries[key];
      if Expired(now, cached.timestamp, cached.ttl) then
        (m.(queries := m.queries - {key}), None)
      else
        (m, Some(cached.data))
  }

  /** `setSession`: stores `data` under `key` at `now`, replacing any earlier
      entry under `key`; nothing else changes. */
  function SetSession<T>(m: Manager<T>, now: int, key: string, data: T): (m': Manager<T>)
    ensures key in m'.sessions && m'.sessions[key] == Entry(data, now)
    ensures m'.sessions.Keys == m.sessions.Keys + {key}
    ensures forall k :: k in m.sessions && k != key ==> m'.sessions[k] == m.sessions[k]
    ensures m'.queries == m.queries && m'.temporary == m.temporary
    ensures m'.stats == m.stats && m'.running == m.running
  {
    m.(sessions := m.sessions[key := Entry(data, now)])
  }

  /** `getSession`: the stored payload, or `None` when absent. There is no
      expiry check, so no clock is read, and the manager is not modified. */
  function GetSession<T>(m: Manager<T>, key: string): (r: Option<T>)
    ensures r.Some? <==> key in m.sessions
    ensures r.Some? ==> r.value == m.sessions[key].data
  {
    if key in m.sessions then Some(m.sessions[key].data) else None
  }

  /** `setTemporaryData`: stores `data` under `key` at `now`, replacing any
      earlier entry under `key`; nothing else changes. */
  function SetTemporaryData<T>(m: Manager<T>, now: int, key: string, data: T): (m': Manager<T>)
    ensures key in m'.temporary && m'.temporary[key] == Entry(data, now)
    ensures m'.temporary.Keys == m.temporary.Keys + {key}
    ensures forall k :: k in m.temporary && k != key ==> m'.temporary[k] == m.temporary[k]
    ensures m'.queries == m.queries && m'.sessions == m.sessions
    ensures m'.stats == m.stats && m'.running == m.running
  {
    m.(temporary := m.temporary[key := Entry(data, now)])
  }

  /** `getTemporaryData`: the stored payload, or `None` when absent, with no
      expiry check and no change to the manager. */
  function GetTemporaryData<T>(m: Manager<T>, key: string): (r: Option<T>)
    ensures r.Some? <==> key in m.temporary
    ensures r.Some? ==> r.value == m.temporary[key].data
  {
    if key in m.temporary then Some(m.temporary[key].data) else None
  }

  /** `performFullCleanup`: sweeps the query, session and temporary stores, each
      at its own clock reading, then records the run: one more cleanup, the
      finishing instant, and this run's memory readings in place of the last
      run's. The timer flag is not consulted or changed. */
  function PerformFullCleanup<T>(m: Manager<T>, readings: CleanupReadings): (m': Manager<T>)
    ensures forall k :: k in m'.queries <==>
              k in m.queries && !Expired(readings.queryNow, m.queries[k].timestamp, m.queries[k].ttl)
    ensures forall k :: k in m'.sessions <==>
              k in m.sessions && !Expired(readings.sessionNow, m.sessions[k].timestamp, 86_400_000)
    ensures forall k :: k in m'.temporary <==>
              k in m.temporary && !Expired(readings.temporaryNow, m.temporary[k].timestamp, 7_200_000)
    ensures forall k :: k in m'.queries ==> m'.queries[k] == m.queries[k]
    ensures forall k :: k in m'.sessions ==> m'.sessions[k] == m.sessions[k]
    ensures forall k :: k in m'.temporary ==> m'.temporary[k] == m.temporary[k]
    ensures m'.stats.totalCleanups == m.stats.totalCleanups + 1
    ensures m'.stats.lastCleanup == Some(readings.finishedAt)
    ensures m'.stats.memoryBefore == readings.memoryBefore
    ensures m'.stats.memoryAfter == readings.memoryAfter
    ensures m'.running == m.running
  {
    Manager(
      LiveQueries(m.queries, readings.queryNow),
      LiveEntries(m.sessions, readings.sessionNow, SessionTtl),
      LiveEntries(m.temporary, readings.temporaryNow, TemporaryTtl),
      CacheStats(m.stats.totalCleanups + 1, Some(readings.finishedAt),
                 readings.memoryBefore, readings.memoryAfter),
      m.running)
  }

  /** `getStats`: a snapshot of the cumulative statistics with the current store
      sizes and the given memory reading; the manager is not modified. */
  function GetStats<T>(m: Manager<T>, currentMemory: int): (s: StatsSnapshot)
    ensures s.queryCacheSize == |m.queries|
    ensures s.sessionCacheSize == |m.sessions|
    ensures s.temporaryDataSize == |m.temporary|
    ensures s.totalCleanups == m.stats.totalCleanups && s.lastCleanup == m.stats.lastCleanup
    ensures s.memoryBefore == m.stats.memoryBefore && s.memoryAfter == m.stats.memoryAfter
    ensures s.currentMemoryUsage == currentMemory
  {
    StatsSnapshot(
      m.stats.totalCleanups, m.stats.lastCleanup, m.stats.memoryBefore, m.stats.memoryAfter,
      |m.queries|, |m.sessions|, |m.temporary|, currentMemory)
  }

  /** `clearAll`: empties the three stores; statistics and timer are untouched. */
  function ClearAll<T>(m: Manager<T>): (m': Manager<T>)
    ensures |m'.queries| == 0 && |m'.sessions| == 0 && |m'.temporary| == 0
    ensures m'.stats == m.stats && m'.running == m.running
  {
    m.(queries := map[], sessions := map[], temporary := map[])
  }

  /** `stop`: disarms the cleanup timer; on a stopped manager it is a no-op.
      Stores and statistics are untouched. */
  function Stop<T>(m: Manager<T>): (m': Manager<T>)
    ensures !m'.running
    ensures !m.running ==> m' == m
    ensures m'.queries == m.queries && m'.sessions == m.sessions && m'.temporary == m.temporary
    ensures m'.stats == m.stats
  {
    if m.running then m.(running := false) else m
  }
}
