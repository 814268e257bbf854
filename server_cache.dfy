/**
 * The API route's process-wide response cache (src/app/api/weather/route.ts, lines 4-46):
 * a table from string keys to entries that carry the cached data, the time they were
 * stored and the maximum age they were stored with.  A read deletes the entry it finds
 * stale; a write overwrites its key and, once the table holds more than 100 entries,
 * sweeps out every entry older than its own stored maximum age.
 *
 * Times are integers in milliseconds; the clock reading `now` is a parameter.
 */
module ServerCache {
  import opened Wrappers

  /** CACHE_DURATION: 15 minutes, the default maximum age of both reads and writes. */
  const CacheDuration: int := 15 * 60 * 1000

  /** GOOGLE_WEATHER_CACHE_DURATION: 30 minutes.  Declared by the route but passed to no call. */
  const GoogleWeatherCacheDuration: int := 30 * 60 * 1000

  /** A write sweeps the table once it holds more than this many entries. */
  const SweepThreshold: nat := 100

  datatype Entry<T> = Entry(data: T, timestamp: int, maxAge: int)

  /** The sweep's test: the entry is older than the maximum age it was stored with. */
  predicate Expired<T>(e: Entry<T>, now: int)
  {
    now - e.timestamp > e.maxAge
  }

  /** What a read of `key` returns: the data when the entry is at most `maxAge` old. */
  function Lookup<T>(m: map<string, Entry<T>>, key: string, now: int, maxAge: int): Option<T>
  {
    if key in m && now - m[key].timestamp <= maxAge then Some(m[key].data) else None
  }

  /** The table after a read of `key`: a stale entry for that key is deleted. */
  function AfterLookup<T>(m: map<string, Entry<T>>, key: string, now: int, maxAge: int): map<string, Entry<T>>
  {
    if key in m && now - m[key].timestamp > maxAge then m - {key} else m
  }

  /** The entries the sweep keeps. */
  function Sweep<T>(m: map<string, Entry<T>>, now: int): map<string, Entry<T>>
  {
    map k | k in m && !Expired(m[k], now) :: m[k]
  }

  /** The table after a write of `data` under `key`. */
  function Store<T>(m: map<string, Entry<T>>, key: string, data: T, now: int, maxAge: int): map<string, Entry<T>>
  {
    var written := m[key := Entry(data, now, maxAge)];
    if |written| > SweepThreshold then Sweep(written, now) else written
  }

  /** The module-level `serverCache` Map. */
  class Cache<T> {
    var entries: map<string, Entry<T>>

    constructor ()
      ensures entries == map[]
    {
      entries := map[];
    }

    /** getFromServerCache: `maxAge` is the caller's argument, not the maximum age stored with the entry. */
    method Get(key: string, now: int, maxAge: int := CacheDuration) returns (r: Option<T>)
      modifies this
      ensures r == Lookup(old(entries), key, now, maxAge)
      ensures entries == AfterLookup(old(entries), key, now, maxAge)
    {
      if key !in entries {
        return None;
      }
      var cached := entries[key];
      var age := now - cached.timestamp;
      if age > maxAge {
        entries := entries - {key};
        return None;
      }
      return Some(cached.data);
    }

    /** saveToServerCache: overwrite, then sweep the whole table when it has grown past the threshold. */
    method Put(key: string, data: T, now: int, maxAge: int := CacheDuration)
      modifies this
      ensures entries == Store(old(entries), key, data, now, maxAge)
    {
      entries := entries[key := Entry(data, now, maxAge)];
      if |entries| > SweepThreshold {
        ghost var written := entries;
        var pending := entries.Keys;
        while pending != {}
          invariant pending <= written.Keys
          invariant entries == map k | k in written && (k in pending || !Expired(written[k], now)) :: written[k]
          decreases pending
        {
          var cacheKey :| cacheKey in pending;
          var cached := entries[cacheKey];
          if now - cached.timestamp > cached.maxAge {
            entries := entries - {cacheKey};
          }
          pending := pending - {cacheKey};
        }
      }
    }
  }

  // ---------------------------------------------------------------------------
  // Properties of reads and writes

  /** A read returns the stored data exactly when the entry exists and is at most the caller's `maxAge` old. */
  lemma LookupFresh<T>(m: map<string, Entry<T>>, key: string, now: int, maxAge: int)
    ensures Lookup(m, key, now, maxAge).Some? <==> key in m && now - m[key].timestamp <= maxAge
    ensures Lookup(m, key, now, maxAge).Some? ==> Lookup(m, key, now, maxAge).value == m[key].data
    ensures Lookup(m, key, now, maxAge).Some? ==> AfterLookup(m, key, now, maxAge) == m
  {
  }

  /** A read that misses deletes exactly the key it read, if present, and nothing else. */
  lemma LookupMissDeletesOnlyKey<T>(m: map<string, Entry<T>>, key: string, now: int, maxAge: int)
    requires Lookup(m, key, now, maxAge).None?
    ensures AfterLookup(m, key, now, maxAge) == m - {key}
  {
  }

  /** The read's maximum age is its own argument: an entry stored for 30 minutes reads as missing after 20. */
  lemma LookupIgnoresStoredMaxAge()
    ensures var m := map["k" := Entry(0, 0, GoogleWeatherCacheDuration)];
      var now := 20 * 60 * 1000;
      !Expired(m["k"], now) && Lookup(m, "k", now, CacheDuration) == None
      && AfterLookup(m, "k", now, CacheDuration) == map[]
  {
  }

  /** The sweep removes exactly the expired entries and leaves the others as they were. */
  lemma SweepExact<T>(m: map<string, Entry<T>>, now: int)
    ensures forall k :: k in Sweep(m, now) <==> k in m && !Expired(m[k], now)
    ensures forall k :: k in Sweep(m, now) ==> Sweep(m, now)[k] == m[k]
  {
  }

  /**
   * A write stores `{data, timestamp: now, maxAge}` under `key`.  When the table then holds at
   * most 100 entries no other entry is touched; otherwise exactly the expired entries go, and the
   * new entry survives whenever its own maximum age is not negative.
   */
  lemma StoreEffect<T>(m: map<string, Entry<T>>, key: string, data: T, now: int, maxAge: int)
    ensures var written := m[key := Entry(data, now, maxAge)];
      var after := Store(m, key, data, now, maxAge);
      && (|written| <= SweepThreshold ==> after == written)
      && (|written| > SweepThreshold ==>
            forall k :: k in after <==> k in written && !Expired(written[k], now))
      && (forall k :: k in after ==> after[k] == written[k])
      && (maxAge >= 0 ==> key in after && after[key] == Entry(data, now, maxAge))
  {
  }

  /** A read straight after a write returns the data written, whatever maximum age the read uses (if not negative). */
  lemma {:induction false} ReadAfterWrite<T>(m: map<string, Entry<T>>, key: string, data: T, now: int, maxAge: int, readMaxAge: int)
    requires maxAge >= 0 && readMaxAge >= 0
    ensures Lookup(Store(m, key, data, now, maxAge), key, now, readMaxAge) == Some(data)
  {
    StoreEffect(m, key, data, now, maxAge);
  }

  /** Once more time than the read's maximum age has passed since a write, reading that key gives nothing. */
  lemma {:induction false} ReadAfterExpiry<T>(m: map<string, Entry<T>>, key: string, data: T, now: int, maxAge: int, later: int, readMaxAge: int)
    requires later - now > readMaxAge
    ensures Lookup(Store(m, key, data, now, maxAge), key, later, readMaxAge) == None
  {
    StoreEffect(m, key, data, now, maxAge);
  }

  /** Writing the same key again replaces the earlier entry: the table never holds two entries for a key. */
  lemma {:induction false} OverwriteReplaces<T>(m: map<string, Entry<T>>, key: string, d1: T, d2: T, t1: int, t2: int, maxAge: int)
    requires maxAge >= 0
    ensures var after := Store(Store(m, key, d1, t1, maxAge), key, d2, t2, maxAge);
      key in after && after[key] == Entry(d2, t2, maxAge)
  {
    StoreEffect(Store(m, key, d1, t1, maxAge), key, d2, t2, maxAge);
  }

  /** After a sweeping write every entry left is within its own stored maximum age. */
  lemma {:induction false} SweepLeavesNoExpired<T>(m: map<string, Entry<T>>, key: string, data: T, now: int, maxAge: int)
    requires |m[key := Entry(data, now, maxAge)]| > SweepThreshold
    ensures forall k :: k in Store(m, key, data, now, maxAge) ==> !Expired(Store(m, key, data, now, maxAge)[k], now)
  {
    StoreEffect(m, key, data, now, maxAge);
  }
}
