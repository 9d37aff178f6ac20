/**
 The expiry sweeps of the cache manager. Each store's sweep visits every entry once
 and deletes those whose age is strictly greater than the time-to-live: per entry for
 the query store, a fixed policy for the session and temporary stores.

 `LiveQueries` and `LiveEntries` say what a sweep leaves behind, as a filter of the
 store; `CleanExpiredQueries` and `CleanExpiredEntries` walk the store key by key,
 deleting as they go and counting the deletions, and are proved to leave exactly
 that filter.
 */
module Sweep {

  import opened CacheEntries

  /** The query entries still live at `now`. */
  function LiveQueries<T>(store: map<string, QueryEntry<T>>, now: int): (r: map<string, QueryEntry<T>>)
    ensures forall k :: k in r <==> k in store && !Expired(now, store[k].timestamp, store[k].ttl)
    ensures forall k :: k in r ==> r[k] == store[k]
  {
    map k | k in store && !Expired(now, store[k].timestamp, store[k].ttl) :: store[k]
  }

  /** The fixed-policy entries still live at `now` under time-to-live `ttl`. */
  function LiveEntries<T>(store: map<string, Entry<T>>, now: int, ttl: int): (r: map<string, Entry<T>>)
    ensures forall k :: k in r <==> k in store && !Expired(now, store[k].timestamp, ttl)
    ensures forall k :: k in r ==> r[k] == store[k]
  {
    map k | k in store && !Expired(now, store[k].timestamp, ttl) :: store[k]
  }

  /** Removing a present key from a map lowers its size by exactly one. */
  lemma RemoveOneSize<V>(m: map<string, V>, k: string)
    requires k in m
    ensures |m - {k}| == |m| - 1
  {
  }

  /** The query-store sweep: visits each key once, deletes the expired entries
      and counts them. The result is the live filter of the store, and the count
      is the number of entries that were dropped. */
  method CleanExpiredQueries<T>(store: map<string, QueryEntry<T>>, now: int)
    returns (kept: map<string, QueryEntry<T>>, cleaned: nat)
    ensures kept == LiveQueries(store, now)
    ensures |kept| + cleaned == |store|
  {
    kept := store;
    cleaned := 0;
    var todo := store.Keys;
    while todo != {}
      invariant todo <= kept.Keys <= store.Keys
      invariant forall k :: k in kept ==> kept[k] == store[k]
      invariant forall k :: k in store && k !in todo ==>
                  (k in kept <==> !Expired(now, store[k].timestamp, store[k].ttl))
      invariant |kept| + cleaned == |store|
      decreases |todo|
    {
      var k :| k in todo;
      if Expired(now, kept[k].timestamp, kept[k].ttl) {
        RemoveOneSize(kept, k);
        kept := kept - {k};
        cleaned := cleaned + 1;
      }
      todo := todo - {k};
    }
    assert kept.Keys == LiveQueries(store, now).Keys;
  }

  /** The session- or temporary-store sweep under the fixed time-to-live `ttl`. */
  method CleanExpiredEntries<T>(store: map<string, Entry<T>>, now: int, ttl: int)
    returns (kept: map<string, Entry<T>>, cleaned: nat)
    ensures kept == LiveEntries(store, now, ttl)
    ensures |kept| + cleaned == |store|
  {
    kept := store;
    cleaned := 0;
    var todo := store.Keys;
    while todo != {}
      invariant todo <= kept.Keys <= store.Keys
      invariant forall k :: k in kept ==> kept[k] == store[k]
      invariant forall k :: k in store && k !in todo ==>
                  (k in kept <==> !Expired(now, store[k].timestamp, ttl))
      invariant |kept| + cleaned == |store|
      decreases |todo|
    {
      var k :| k in todo;
      if Expired(now, kept[k].timestamp, ttl) {
        RemoveOneSize(kept, k);
        kept := kept - {k};
        cleaned := cleaned + 1;
      }
      todo := todo - {k};
    }
    assert kept.Keys == LiveEntries(store, now, ttl).Keys;
  }

  /** Sweeping at `t1` and then at a later `t2` leaves what one sweep at `t2`
      leaves: an entry live at `t2` was live at every earlier instant. In
      particular a second sweep at the same instant evicts nothing. */
  lemma LiveQueriesLater<T>(store: map<string, QueryEntry<T>>, t1: int, t2: int)
    requires t1 <= t2
    ensures LiveQueries(LiveQueries(store, t1), t2) == LiveQueries(store, t2)
  {
  }

  /** The fixed-policy counterpart of `LiveQueriesLater`. */
  lemma LiveEntriesLater<T>(store: map<string, Entry<T>>, t1: int, t2: int, ttl: int)
    requires t1 <= t2
    ensures LiveEntries(LiveEntries(store, t1, ttl), t2, ttl) == LiveEntries(store, t2, ttl)
  {
  }
}
