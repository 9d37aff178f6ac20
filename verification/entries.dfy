/** The Some/None datatype standing in for the `null` the cache getters return. */
module Wrappers {

  datatype Option<+T> = None | Some(value: T)
}

/**
 Entries of the three cache stores, the fixed time-to-live policies, and the one
 expiry test every sweep and the lazy read share. Times are milliseconds, as the
 host clock reports them; they are plain integers, so a clock that goes backwards
 simply yields a negative age.
 */
module CacheEntries {

  import opened Wrappers

  /** Default per-entry time-to-live of a query entry: one hour. */
  const DefaultQueryTtl: int := 60 * 60 * 1000

  /** Shared time-to-live of every session entry: 24 hours. */
  const SessionTtl: int := 24 * 60 * 60 * 1000

  /** Shared time-to-live of every temporary entry: 2 hours. */
  const TemporaryTtl: int := 2 * 60 * 60 * 1000

  /** A query-store entry: payload, insertion time and its own time-to-live. */
  datatype QueryEntry<T> = QueryEntry(data: T, timestamp: int, ttl: int)

  /** A session- or temporary-store entry: payload and insertion time only;
      the store's fixed policy supplies the time-to-live. */
  datatype Entry<T> = Entry(data: T, timestamp: int)

  /** An entry inserted at `timestamp` is expired at `now` only when its age
      is strictly greater than the time-to-live: an age equal to it survives. */
  predicate Expired(now: int, timestamp: int, ttl: int)
  {
    now - timestamp > ttl
  }

  /** The time-to-live `setQuery` stores: the caller's, or the default when omitted. */
  function QueryTtl(ttl: Option<int>): (r: int)
    ensures ttl.None? ==> r == 3_600_000
    ensures ttl.Some? ==> r == ttl.value
  {
    match ttl
    case Some(t) => t
    case None => DefaultQueryTtl
  }
}
