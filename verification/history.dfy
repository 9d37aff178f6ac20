/**
 A manager's life as a sequence of public calls. Over any such sequence the
 cleanup counter grows by exactly the number of full cleanups, the statistics
 change only through full cleanups, and nothing re-arms a stopped timer.
 */
module CacheHistory {

  import opened Wrappers
  import opened CacheManager

  /** One call on the public surface, with the clock and memory readings it takes. */
  datatype Call<T> =
    | SetQueryCall(now: int, key: string, data: T, ttl: Option<int>)
    | GetQueryCall(now: int, key: string)
    | SetSessionCall(now: int, key: string, data: T)
    | GetSessionCall(key: string)
    | SetTemporaryDataCall(now: int, key: string, data: T)
    | GetTemporaryDataCall(key: string)
    | CleanupCall(readings: CleanupReadings)
    | GetStatsCall(currentMemory: int)
    | ClearAllCall
    | StopCall

  /** The manager after one call; the getters that return only a value leave it as it was. */
  function Step<T>(m: Manager<T>, c: Call<T>): Manager<T>
  {
    match c
    case SetQueryCall(now, key, data, ttl) => SetQuery(m, now, key, data, ttl)
    case GetQueryCall(now, key) => GetQuery(m, now, key).0
    case SetSessionCall(now, key, data) => SetSession(m, now, key, data)
    case GetSessionCall(_) => m
    case SetTemporaryDataCall(now, key, data) => SetTemporaryData(m, now, key, data)
    case GetTemporaryDataCall(_) => m
    case CleanupCall(readings) => PerformFullCleanup(m, readings)
    case GetStatsCall(_) => m
    case ClearAllCall => ClearAll(m)
    case StopCall => Stop(m)
  }

  /** The manager after the calls in order. */
  function Run<T>(m: Manager<T>, calls: seq<Call<T>>): Manager<T>
    decreases |calls|
  {
    if |calls| == 0 then m else Run(Step(m, calls[0]), calls[1..])
  }

  /** The number of full cleanups among the calls. */
  function Cleanups<T>(calls: seq<Call<T>>): nat
    decreases |calls|
  {
    if |calls| == 0 then 0
    else (if calls[0].CleanupCall? then 1 else 0) + Cleanups(calls[1..])
  }

  /** The cleanup counter advances by exactly the number of full cleanups. */
  lemma {:induction false} RunCountsCleanups<T>(m: Manager<T>, calls: seq<Call<T>>)
    ensures Run(m, calls).stats.totalCleanups == m.stats.totalCleanups + Cleanups(calls)
    decreases |calls|
  {
    if |calls| > 0 {
      RunCountsCleanups(Step(m, calls[0]), calls[1..]);
    }
  }

  /** Without a full cleanup the statistics do not change at all: writes, reads,
      `clearAll` and `stop` leave the counters, the last-cleanup instant and the
      memory readings alone. */
  lemma {:induction false} StatsChangeOnlyByCleanup<T>(m: Manager<T>, calls: seq<Call<T>>)
    requires Cleanups(calls) == 0
    ensures Run(m, calls).stats == m.stats
    decreases |calls|
  {
    if |calls| > 0 {
      StatsChangeOnlyByCleanup(Step(m, calls[0]), calls[1..]);
    }
  }

  /** No call re-arms a stopped timer. */
  lemma {:induction false} StoppedStaysStopped<T>(m: Manager<T>, calls: seq<Call<T>>)
    requires !m.running
    ensures !Run(m, calls).running
    decreases |calls|
  {
    if |calls| > 0 {
      StoppedStaysStopped(Step(m, calls[0]), calls[1..]);
    }
  }
}
