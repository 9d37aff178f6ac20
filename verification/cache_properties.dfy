/**
 Properties that relate several cache-manager operations: overwrite and lazy-expiry
 semantics of the query store, the agreement between a lazy read and a sweep, the
 strict expiry boundary, idempotent cleanup, the getter asymmetry between the query
 store and the other two stores, and three end-to-end scenarios.
 */
module CacheProperties {

  import opened Wrappers
  import opened CacheEntries
  import opened Sweep
  import opened CacheManager

  /** Every entry of every store is live: queries at `now` under their own
      time-to-live, sessions and temporary data under the fixed policies. */
  ghost predicate AllLive<T>(m: Manager<T>, now: int)
  {
    && (forall k :: k in m.queries ==> !Expired(now, m.queries[k].timestamp, m.queries[k].ttl))
    && (forall k :: k in m.sessions ==> !Expired(now, m.sessions[k].timestamp, SessionTtl))
    && (forall k :: k in m.temporary ==> !Expired(now, m.temporary[k].timestamp, TemporaryTtl))
  }

  /** Setting a key twice keeps only the second write: its payload, its time and
      its time-to-live, so a later read hits exactly while the second write is live. */
  lemma QueryOverwrite<T>(m: Manager<T>, t1: int, t2: int, now: int, key: string,
                          v1: T, v2: T, ttl1: Option<int>, ttl2: Option<int>)
    ensures var m' := SetQuery(SetQuery(m, t1, key, v1, ttl1), t2, key, v2, ttl2);
            && m'.queries[key] == QueryEntry(v2, t2, QueryTtl(ttl2))
            && GetQuery(m', now, key).1 == (if now - t2 <= QueryTtl(ttl2) then Some(v2) else None)
  {
  }

  /** A write under one key is invisible to reads of any other key. */
  lemma SetQueryOtherKey<T>(m: Manager<T>, t: int, now: int, key: string, other: string,
                            data: T, ttl: Option<int>)
    requires other != key
    ensures GetQuery(SetQuery(m, t, key, data, ttl), now, other).1 == GetQuery(m, now, other).1
  {
  }

  /** A lazy read hits exactly when a sweep at the same instant would keep the key. */
  lemma GetQueryAgreesWithSweep<T>(m: Manager<T>, now: int, key: string)
    ensures GetQuery(m, now, key).1.Some? <==> key in LiveQueries(m.queries, now)
  {
  }

  /** The deletion a lazy read performs is one a sweep at the same instant would
      perform anyway: reading never changes what the sweep leaves. */
  lemma GetQueryInvisibleToSweep<T>(m: Manager<T>, now: int, key: string)
    ensures LiveQueries(GetQuery(m, now, key).0.queries, now) == LiveQueries(m.queries, now)
  {
  }

  /** The expiry boundary is strict: a query entry whose age equals its
      time-to-live is returned, and one millisecond later it is gone, both from
      the read and from the store. */
  lemma QueryBoundary<T>(m: Manager<T>, t: int, key: string, data: T, ttl: int)
    ensures var m' := SetQuery(m, t, key, data, Some(ttl));
            && GetQuery(m', t + ttl, key) == (m', Some(data))
            && GetQuery(m', t + ttl + 1, key).1 == None
            && key !in GetQuery(m', t + ttl + 1, key).0.queries
  {
  }

  /** The same strict boundary holds for the sweeps of all three stores: an entry
      of age exactly its time-to-live survives a full cleanup; one millisecond
      older, it is evicted. */
  lemma SweepBoundary<T>(m: Manager<T>, t: int, key: string, data: T, ttl: int, mb: int, ma: int)
    ensures key in PerformFullCleanup(SetQuery(m, t, key, data, Some(ttl)), AtInstant(t + ttl, mb, ma)).queries
    ensures key !in PerformFullCleanup(SetQuery(m, t, key, data, Some(ttl)), AtInstant(t + ttl + 1, mb, ma)).queries
    ensures key in PerformFullCleanup(SetSession(m, t, key, data), AtInstant(t + SessionTtl, mb, ma)).sessions
    ensures key !in PerformFullCleanup(SetSession(m, t, key, data), AtInstant(t + SessionTtl + 1, mb, ma)).sessions
    ensures key in PerformFullCleanup(SetTemporaryData(m, t, key, data), AtInstant(t + TemporaryTtl, mb, ma)).temporary
    ensures key !in PerformFullCleanup(SetTemporaryData(m, t, key, data), AtInstant(t + TemporaryTtl + 1, mb, ma)).temporary
  {
  }

  /** A full cleanup whose sweeps all read the clock at `now` leaves only live
      entries, so after it every read of a present query key at `now` hits. */
  lemma CleanupLeavesOnlyLive<T>(m: Manager<T>, now: int, mb: int, ma: int, key: string)
    ensures AllLive(PerformFullCleanup(m, AtInstant(now, mb, ma)), now)
    ensures var m' := PerformFullCleanup(m, AtInstant(now, mb, ma));
            key in m'.queries ==> GetQuery(m', now, key) == (m', Some(m'.queries[key].data))
  {
  }

  /** Full cleanup is idempotent in its evictions: a second run whose sweeps read
      the clock no earlier than the first run's leaves the stores a single run at
      the second readings would leave, so a second run at the same instant evicts
      nothing. Each run still counts, and the last run's instant and memory
      readings are the ones kept. */
  lemma CleanupTwice<T>(m: Manager<T>, r1: CleanupReadings, r2: CleanupReadings)
    requires r1.queryNow <= r2.queryNow
    requires r1.sessionNow <= r2.sessionNow
    requires r1.temporaryNow <= r2.temporaryNow
    ensures var once := PerformFullCleanup(m, r2);
            var twice := PerformFullCleanup(PerformFullCleanup(m, r1), r2);
            && twice.queries == once.queries
            && twice.sessions == once.sessions
            && twice.temporary == once.temporary
            && twice.stats.totalCleanups == m.stats.totalCleanups + 2
            && twice.stats == once.stats.(totalCleanups := m.stats.totalCleanups + 2)
  {
  }

  /** A second full cleanup at the same instant evicts nothing. */
  lemma CleanupIdempotent<T>(m: Manager<T>, now: int, mb1: int, ma1: int, mb2: int, ma2: int)
    ensures var first := PerformFullCleanup(m, AtInstant(now, mb1, ma1));
            var second := PerformFullCleanup(first, AtInstant(now, mb2, ma2));
            && second.queries == first.queries
            && second.sessions == first.sessions
            && second.temporary == first.temporary
            && second.stats.totalCleanups == first.stats.totalCleanups + 1
  {
  }

  /** Only the query store expires on read. A session or temporary entry is
      returned however old it is, while a full cleanup at the same age drops it. */
  lemma GetterAsymmetry<T>(m: Manager<T>, t: int, key: string, data: T, mb: int, ma: int)
    ensures var s := SetSession(m, t, key, data);
            && GetSession(s, key) == Some(data)
            && GetSession(PerformFullCleanup(s, AtInstant(t + SessionTtl + 1, mb, ma)), key) == None
    ensures var d := SetTemporaryData(m, t, key, data);
            && GetTemporaryData(d, key) == Some(data)
            && GetTemporaryData(PerformFullCleanup(d, AtInstant(t + TemporaryTtl + 1, mb, ma)), key) == None
    ensures var q := SetQuery(m, t, key, data, None);
            GetQuery(q, t + DefaultQueryTtl + 1, key).1 == None
  {
  }

  /** A session or temporary write is read back under its key, whatever the
      time, and leaves the reads of every other key as they were. */
  lemma SetThenGet<T>(m: Manager<T>, t: int, key: string, other: string, data: T)
    ensures GetSession(SetSession(m, t, key, data), other) ==
              (if other == key then Some(data) else GetSession(m, other))
    ensures GetTemporaryData(SetTemporaryData(m, t, key, data), other) ==
              (if other == key then Some(data) else GetTemporaryData(m, other))
  {
  }

  /** The sizes `getStats` reports follow the writes and evictions: a write grows
      its store by one exactly when the key is new, a lazy read that expires an
      entry shrinks the query store by one, and every other read leaves the
      sizes alone. */
  lemma ReportedSizesFollowWrites<T>(m: Manager<T>, t: int, key: string, data: T, ttl: Option<int>, mem: int)
    ensures GetStats(SetQuery(m, t, key, data, ttl), mem).queryCacheSize ==
              GetStats(m, mem).queryCacheSize + (if key in m.queries then 0 else 1)
    ensures GetStats(SetSession(m, t, key, data), mem).sessionCacheSize ==
              GetStats(m, mem).sessionCacheSize + (if key in m.sessions then 0 else 1)
    ensures GetStats(SetTemporaryData(m, t, key, data), mem).temporaryDataSize ==
              GetStats(m, mem).temporaryDataSize + (if key in m.temporary then 0 else 1)
    ensures GetStats(GetQuery(m, t, key).0, mem).queryCacheSize ==
              GetStats(m, mem).queryCacheSize - (if key in m.queries && GetQuery(m, t, key).1.None? then 1 else 0)
  {
  }

  /** After `clearAll` every read misses, whatever the key and the instant, and a
      full cleanup has nothing left to evict. */
  lemma ClearAllEmpties<T>(m: Manager<T>, now: int, key: string, r: CleanupReadings)
    ensures GetQuery(ClearAll(m), now, key) == (ClearAll(m), None)
    ensures GetSession(ClearAll(m), key) == None
    ensures GetTemporaryData(ClearAll(m), key) == None
    ensures ClearAll(ClearAll(m)) == ClearAll(m)
    ensures var c := PerformFullCleanup(ClearAll(m), r);
            c.queries == map[] && c.sessions == map[] && c.temporary == map[]
  {
  }

  /** `stop` touches only the timer flag, so it commutes with every state-changing
      operation, and applying it twice is applying it once. */
  lemma StopOnlyDisarms<T>(m: Manager<T>, now: int, key: string, data: T, ttl: Option<int>,
                           r: CleanupReadings, mem: int)
    ensures Stop(Stop(m)) == Stop(m)
    ensures Stop(SetQuery(m, now, key, data, ttl)) == SetQuery(Stop(m), now, key, data, ttl)
    ensures Stop(GetQuery(m, now, key).0) == GetQuery(Stop(m), now, key).0
    ensures Stop(SetSession(m, now, key, data)) == SetSession(Stop(m), now, key, data)
    ensures Stop(SetTemporaryData(m, now, key, data)) == SetTemporaryData(Stop(m), now, key, data)
    ensures Stop(PerformFullCleanup(m, r)) == PerformFullCleanup(Stop(m), r)
    ensures Stop(ClearAll(m)) == ClearAll(Stop(m))
    ensures GetStats(Stop(m), mem) == GetStats(m, mem)
  {
  }

  /** A query with a 100 ms time-to-live, read 150 ms later, misses and is gone
      from the reported size. */
  lemma ScenarioQueryExpires(t: int, data: int, mem: int)
    ensures var m := SetQuery(New<int>(), t, "q1", data, Some(100));
            var r := GetQuery(m, t + 150, "q1");
            && r.1 == None
            && GetStats(r.0, mem).queryCacheSize == 0
  {
  }

  /** One session makes the reported session size 1; `clearAll` brings it to 0
      and leaves the cleanup counters alone. */
  lemma ScenarioSessionCleared(t: int, data: int, mem: int)
    ensures var m := SetSession(New<int>(), t, "s1", data);
            && GetStats(m, mem).sessionCacheSize == 1
            && GetStats(ClearAll(m), mem).sessionCacheSize == 0
            && GetStats(ClearAll(m), mem).totalCleanups == GetStats(m, mem).totalCleanups
            && GetStats(ClearAll(m), mem).lastCleanup == GetStats(m, mem).lastCleanup
  {
  }

  /** Two full cleanups report two runs and the second run's instant. */
  lemma ScenarioTwoCleanups(r1: CleanupReadings, r2: CleanupReadings, mem: int)
    ensures var m := PerformFullCleanup(PerformFullCleanup(New<int>(), r1), r2);
            && GetStats(m, mem).totalCleanups == 2
            && GetStats(m, mem).lastCleanup == Some(r2.finishedAt)
  {
  }
}
