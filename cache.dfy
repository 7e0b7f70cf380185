/**
 * The in-memory TTL cache of crypto_market_mcp/cache.py: a key/value store in
 * which every entry carries an expiry instant and whose size is bounded by
 * `maxsize`.
 *
 * Time is an integer instant passed to each operation. The source reads the
 * clock with `time.time()`. `Get` and `Set` each run under the source's lock,
 * so each is one atomic step here, and each reads the clock once.
 * `GetOrSet` is not atomic: it is a `Get` at `now`, then the factory call
 * outside the lock, then a `Set` at a later reading `later`.
 */
module Cache {
  import opened Wrappers

  /** A stored value and the instant from which it is stale (`CacheEntry`). */
  datatype Entry<V> = Entry(value: V, expiresAt: int)

  /** The entries of `store` still fresh at `now`: what the purge sweep keeps. */
  function Purged<K, V>(store: map<K, Entry<V>>, now: int): (live: map<K, Entry<V>>)
    ensures live.Keys <= store.Keys
    ensures forall k :: k in store ==> (k in live <==> store[k].expiresAt > now)
    ensures forall k :: k in live ==> live[k] == store[k]
  {
    map k | k in store && store[k].expiresAt > now :: store[k]
  }

  /** `k` is an entry of `store` whose expiry is not later than any other's. */
  ghost predicate IsOldest<K, V>(store: map<K, Entry<V>>, k: K)
  {
    k in store && forall j :: j in store ==> store[k].expiresAt <= store[j].expiresAt
  }

  /**
   * The scan behind `min(self._store.items(), key=expires_at)`: one key with
   * the smallest expiry, or None where `min` raises on an empty store.
   */
  method OldestKey<K, V>(store: map<K, Entry<V>>) returns (oldest: Option<K>)
    ensures oldest.None? <==> store == map[]
    ensures oldest.Some? ==> IsOldest(store, oldest.value)
  {
    if store == map[] {
      return None;
    }
    var rest := store.Keys;
    var best :| best in rest;
    rest := rest - {best};
    while rest != {}
      invariant rest <= store.Keys
      invariant best in store
      invariant forall j :: j in store && j !in rest ==> store[best].expiresAt <= store[j].expiresAt
      decreases rest
    {
      var k :| k in rest;
      if store[k].expiresAt < store[best].expiresAt {
        best := k;
      }
      rest := rest - {k};
    }
    oldest := Some(best);
  }

  /** What `get` answers: the key's value when its entry is still fresh at `now`. */
  function GetResult<K, V>(store: map<K, Entry<V>>, key: K, now: int): Option<V>
  {
    var live := Purged(store, now);
    if key in live then Some(live[key].value) else None
  }

  /**
   * The eviction step of `set`, on the purged store `live`. When the store is
   * full and not empty, exactly one entry with the smallest expiry is chosen.
   * Ties are broken by dict order in the source, and any tied key is allowed
   * here. Otherwise nothing is chosen.
   */
  ghost predicate EvictionChoice<K, V>(live: map<K, Entry<V>>, maxsize: int, victim: Option<K>)
  {
    if |live| >= maxsize && live != map[] then victim.Some? && IsOldest(live, victim.value)
    else victim == None
  }

  /**
   * `set` finds the store full and has nothing to evict. This can happen only
   * when `maxsize <= 0`. Then `min` of an empty sequence raises ValueError.
   */
  predicate EvictionFails<K, V>(live: map<K, Entry<V>>, maxsize: int)
  {
    |live| >= maxsize && live == map[]
  }

  /** The store after `set` has evicted `victim` (if any) from `live` and inserted the key. */
  function Stored<K, V>(live: map<K, Entry<V>>, key: K, value: V, expiresAt: int, victim: Option<K>): map<K, Entry<V>>
  {
    var kept := if victim.Some? then live - {victim.value} else live;
    kept[key := Entry(value, expiresAt)]
  }

  /** Removing keys from a map never makes it larger. */
  lemma {:induction false} SubmapSize<K, V>(small: map<K, V>, big: map<K, V>)
    requires small.Keys <= big.Keys
    ensures |small| <= |big|
    decreases |big|
  {
    if small != map[] {
      var k :| k in small;
      var small', big' := small - {k}, big - {k};
      assert small'.Keys == small.Keys - {k};
      assert big'.Keys == big.Keys - {k};
      SubmapSize(small', big');
    }
  }

  /** The purge sweep never adds entries, so it never makes the store larger. */
  lemma PurgeShrinks<K, V>(store: map<K, Entry<V>>, now: int)
    ensures |Purged(store, now)| <= |store|
  {
    SubmapSize(Purged(store, now), store);
  }

  /** Purging twice at the same instant is the same as purging once. */
  lemma PurgeIdempotent<K, V>(store: map<K, Entry<V>>, now: int)
    ensures Purged(Purged(store, now), now) == Purged(store, now)
  {
  }

  /**
   * `get` never reads a stale entry. It returns a value exactly when the key
   * is present and expires after `now`. That value is the stored one.
   */
  lemma GetIsFresh<K, V>(store: map<K, Entry<V>>, key: K, now: int)
    ensures GetResult(store, key, now).Some? <==> key in store && store[key].expiresAt > now
    ensures GetResult(store, key, now).Some? ==> GetResult(store, key, now).value == store[key].value
  {
  }

  /**
   * With a clock that does not go back, a purge at `now` followed by a purge
   * at `later` leaves what a single purge at `later` leaves.
   */
  lemma PurgeLater<K, V>(store: map<K, Entry<V>>, now: int, later: int)
    requires now <= later
    ensures Purged(Purged(store, now), later) == Purged(store, later)
  {
  }

  /** Inserting one key makes a map at most one entry larger. */
  lemma InsertSize<K, V>(m: map<K, V>, k: K, v: V)
    ensures |m[k := v]| <= |m| + 1
  {
    assert m[k := v].Keys == m.Keys + {k};
  }

  /** Removing a present key makes a map exactly one entry smaller. */
  lemma RemoveSize<K, V>(m: map<K, V>, k: K)
    requires k in m
    ensures |m - {k}| == |m| - 1
  {
    assert (m - {k}).Keys == m.Keys - {k};
  }

  /**
   * The size bound. If the store holds at most `maxsize >= 1` entries before
   * `set`, it holds at most `maxsize` after, whichever oldest entry is evicted.
   */
  lemma {:induction false} SetKeepsBound<K, V>(before: map<K, Entry<V>>, key: K, value: V, now: int, ttl: int,
                                               maxsize: int, victim: Option<K>)
    requires 1 <= maxsize && |before| <= maxsize
    requires EvictionChoice(Purged(before, now), maxsize, victim)
    ensures |Stored(Purged(before, now), key, value, now + ttl, victim)| <= maxsize
  {
    var live := Purged(before, now);
    PurgeShrinks(before, now);
    var kept := if victim.Some? then live - {victim.value} else live;
    if victim.Some? {
      RemoveSize(live, victim.value);
    } else {
      assert |live| < maxsize;
    }
    assert |kept| < maxsize;
    InsertSize(kept, key, Entry(value, now + ttl));
  }

  /**
   * What `set` changes. The key maps to the new value, which expires at
   * `now + ttl`. The victim, if any, is an oldest survivor of the purge, and
   * it is the only survivor that goes. Every other survivor is unchanged.
   */
  lemma SetChangesOnlyKeyAndVictim<K, V>(live: map<K, Entry<V>>, key: K, value: V, expiresAt: int,
                                         maxsize: int, victim: Option<K>)
    requires EvictionChoice(live, maxsize, victim)
    ensures var after := Stored(live, key, value, expiresAt, victim);
      && key in after && after[key] == Entry(value, expiresAt)
      && (victim.Some? ==> victim.value in live && IsOldest(live, victim.value)
                           && (victim.value != key ==> victim.value !in after))
      && after.Keys <= live.Keys + {key}
      && forall k :: k in live && k != key && victim != Some(k) ==> k in after && after[k] == live[k]
  {
  }

  /**
   * TTL correctness: a value stored at `now` is read back at every later
   * instant before `now + ttl`, and is gone from `now + ttl` on.
   */
  lemma SetThenGet<K, V>(live: map<K, Entry<V>>, key: K, value: V, now: int, ttl: int,
                         victim: Option<K>, later: int)
    ensures GetResult(Stored(live, key, value, now + ttl, victim), key, later)
            == if later < now + ttl then Some(value) else None
  {
  }

  /** The in-memory cache (`TTLCache`); the dict `_store` is the field `store`. */
  class TTLCache<K(==), V> {
    const ttl: int
    const maxsize: int
    var store: map<K, Entry<V>>

    /** The size bound that `set` keeps when `maxsize >= 1`. */
    ghost predicate Bounded()
      reads this
    {
      |store| <= maxsize
    }

    /** `TTLCache(ttl_seconds=10, maxsize=1024)`. */
    constructor (ttlSeconds: int := 10, maxsize: int := 1024)
      ensures ttl == ttlSeconds && this.maxsize == maxsize
      ensures store == map[]
    {
      ttl := ttlSeconds;
      this.maxsize := maxsize;
      store := map[];
    }

    /** `_purge_expired`: collect the expired keys, then pop them one by one. */
    method PurgeExpired(now: int)
      modifies this
      ensures store == Purged(old(store), now)
    {
      ghost var before := store;
      var expired := set k | k in store && store[k].expiresAt <= now;
      ghost var allExpired := expired;
      while expired != {}
        invariant expired <= allExpired
        invariant store == map k | k in before && k !in allExpired - expired :: before[k]
        decreases expired
      {
        var k :| k in expired;
        store := store - {k};
        expired := expired - {k};
      }
    }

    /** `get`: sweep the expired entries, then look the key up. */
    method Get(key: K, now: int) returns (v: Option<V>)
      modifies this
      ensures store == Purged(old(store), now)
      ensures store.Keys <= old(store).Keys
      ensures v == GetResult(old(store), key, now)
      ensures v.Some? <==> key in old(store) && old(store)[key].expiresAt > now
      ensures v.Some? ==> v.value == old(store)[key].value
      ensures old(Bounded()) ==> Bounded()
    {
      PurgeShrinks(store, now);
      PurgeExpired(now);
      if key in store {
        v := Some(store[key].value);
      } else {
        v := None;
      }
    }

    /**
     * `set`: sweep, evict one oldest entry if the store is full, then insert
     * the key with expiry `now + ttl`. `ok` is false where the source raises
     * ValueError (nothing to evict, `maxsize <= 0`); the store is then the
     * purged one. `victim` names the evicted key.
     */
    method Set(key: K, value: V, now: int) returns (ok: bool, ghost victim: Option<K>)
      modifies this
      ensures var live := Purged(old(store), now);
        && EvictionChoice(live, maxsize, victim)
        && ok == !EvictionFails(live, maxsize)
        && store == if ok then Stored(live, key, value, now + ttl, victim) else live
      ensures ok ==> key in store && store[key] == Entry(value, now + ttl)
      ensures 1 <= maxsize && old(Bounded()) ==> ok && Bounded()
    {
      ghost var before := store;
      PurgeExpired(now);
      victim := None;
      if |store| >= maxsize {
        var oldest := OldestKey(store);
        if oldest.None? {
          return false, None;
        }
        victim := oldest;
        store := store - {oldest.value};
      }
      store := store[key := Entry(value, now + ttl)];
      ok := true;
      if 1 <= maxsize && |before| <= maxsize {
        SetKeepsBound(before, key, value, now, ttl, maxsize, victim);
      }
    }

    /**
     * `get_or_set`. It is a `get` at `now`. On a hit it returns the cached value
     * and does not call the factory. On a miss it calls the factory once, and
     * then a `set` at `later` stores the factory's value and returns it. `r` is
     * None where `set` raises. `victim` is the key that `set` evicted.
     */
    method GetOrSet(key: K, now: int, later: int, factory: Factory<V>) returns (r: Option<V>, ghost victim: Option<K>)
      modifies this, factory
      ensures var cached := GetResult(old(store), key, now);
        cached.Some? ==> && r == cached && victim == None
                         && factory.calls == old(factory.calls)
                         && store == Purged(old(store), now)
      ensures var cached := GetResult(old(store), key, now);
        var live := Purged(Purged(old(store), now), later);
        cached.None? ==> && factory.calls == old(factory.calls) + 1
                         && EvictionChoice(live, maxsize, victim)
                         && (r.None? <==> EvictionFails(live, maxsize))
                         && (r.Some? ==> r.value == factory.result)
                         && store == if r.Some? then Stored(live, key, factory.result, later + ttl, victim) else live
      ensures now <= later ==> Purged(Purged(old(store), now), later) == Purged(old(store), later)
      ensures 1 <= maxsize && old(Bounded()) ==> Bounded()
    {
      var cached := Get(key, now);
      if cached.Some? {
        return cached, None;
      }
      var value := factory.Call();
      var ok;
      ok, victim := Set(key, value, later);
      r := if ok then Some(value) else None;
      if now <= later {
        PurgeLater(old(store), now, later);
      }
    }
  }

  /**
   * The factory passed to `get_or_set`: a callable that returns `result`.
   * `calls` counts how often it has been called.
   */
  class Factory<V> {
    const result: V
    var calls: nat

    constructor (result: V)
      ensures this.result == result && calls == 0
    {
      this.result := result;
      calls := 0;
    }

    /** `factory()`: one call, which returns the factory's value. */
    method Call() returns (v: V)
      modifies this
      ensures v == result && calls == old(calls) + 1
    {
      calls := calls + 1;
      v := result;
    }
  }
}
