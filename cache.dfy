/**
 * The in-process cache of storage/cache.py: `LocalCacheProvider` keeps a
 * key->value map and a key->expiry map, and evicts an expired entry lazily,
 * when it is read. The wall clock is the explicit parameter `now`, in whole
 * seconds from 0001-01-01T00:00:00, the least `datetime`; an expiry is
 * `now + ttl` at the time of the write.
 */
module Cache {
  import opened Wrappers

  /** The two dictionaries of a local cache. */
  datatype Store<V> = Store(cache: map<string, V>, ttls: map<string, int>)

  /** Every key with an expiry also holds a value. */
  predicate Consistent<V>(st: Store<V>) {
    st.ttls.Keys <= st.cache.Keys
  }

  /** The key's expiry has passed: expiry needs `now` strictly later. */
  predicate Expired<V>(st: Store<V>, key: string, now: int) {
    key in st.ttls && now > st.ttls[key]
  }

  /** `ttl` counts only when Python would find it truthy: present and non-zero. */
  predicate HasTtl(ttl: Option<int>) {
    ttl.Some? && ttl.value != 0
  }

  /** The last second a `datetime` can hold, 9999-12-31T23:59:59. */
  const MaxInstant: int := 315537897599

  /** An instant `datetime` can represent; computing any other raises `OverflowError`. */
  predicate Representable(t: int) {
    0 <= t <= MaxInstant
  }

  /**
   * `set` reports success unless the expiry `now + ttl` overflows `datetime`;
   * the `except` turns that error into `False`.
   */
  predicate SetSucceeds(ttl: Option<int>, now: int) {
    !HasTtl(ttl) || Representable(now + ttl.value)
  }

  /** `get`: the value unless expired; an expired entry is dropped from both maps. */
  function CacheGet<V>(st: Store<V>, key: string, now: int): (r: (Store<V>, Option<V>))
    ensures r.1.Some? <==> key in st.cache && !Expired(st, key, now)
    ensures r.1.Some? ==> r.1.value == st.cache[key] && r.0 == st
    ensures r.1.None? ==> key !in r.0.cache && r.0.cache == st.cache - {key}
  {
    if key in st.cache then
      if Expired(st, key, now) then (Store(st.cache - {key}, st.ttls - {key}), None)
      else (st, Some(st.cache[key]))
    else (st, None)
  }

  /**
   * `set`: store the value; only a truthy `ttl` writes a new expiry, and only
   * when that expiry is representable (the value is stored before the expiry
   * is computed, so an overflow keeps the value and the old expiry).
   */
  function CacheSet<V>(st: Store<V>, key: string, value: V, ttl: Option<int>, now: int): (r: Store<V>)
    ensures r.cache == st.cache[key := value]
    ensures SetSucceeds(ttl, now) && HasTtl(ttl) ==> key in r.ttls && Representable(r.ttls[key])
    ensures !SetSucceeds(ttl, now) || !HasTtl(ttl) ==> r.ttls == st.ttls
    ensures Consistent(st) ==> Consistent(r)
  {
    Store(st.cache[key := value], if SetSucceeds(ttl, now) && HasTtl(ttl) then st.ttls[key := now + ttl.value] else st.ttls)
  }

  /** `delete`: drop the value and its expiry, reporting whether a value was there. */
  function CacheDelete<V>(st: Store<V>, key: string): (r: (Store<V>, bool))
    ensures r.1 <==> key in st.cache
    ensures key !in r.0.cache && r.0.cache == st.cache - {key}
    ensures Consistent(st) ==> Consistent(r.0)
  {
    if key in st.cache then (Store(st.cache - {key}, st.ttls - {key}), true)
    else (st, false)
  }

  class LocalCacheProvider<V> {
    var cache: map<string, V>
    var ttls: map<string, int>

    function State(): Store<V>
      reads this
    {
      Store(cache, ttls)
    }

    constructor()
      ensures State() == Store(map[], map[])
    {
      cache := map[];
      ttls := map[];
    }

    method Get(key: string, now: int) returns (value: Option<V>)
      modifies this
      ensures (State(), value) == CacheGet(old(State()), key, now)
    {
      if key in cache {
        if key in ttls && now > ttls[key] {
          cache := cache - {key};
          ttls := ttls - {key};
          return None;
        }
        return Some(cache[key]);
      }
      return None;
    }

    method Set(key: string, value: V, ttl: Option<int>, now: int) returns (ok: bool)
      modifies this
      ensures State() == CacheSet(old(State()), key, value, ttl, now)
      ensures ok == SetSucceeds(ttl, now)
    {
      cache := cache[key := value];
      if ttl.Some? && ttl.value != 0 {
        var expiry := now + ttl.value;
        if !(0 <= expiry <= MaxInstant) {
          return false;
        }
        ttls := ttls[key := expiry];
      }
      return true;
    }

    method Delete(key: string) returns (deleted: bool)
      modifies this
      ensures (State(), deleted) == CacheDelete(old(State()), key)
    {
      if key in cache {
        cache := cache - {key};
        if key in ttls {
          ttls := ttls - {key};
        } else {
          assert ttls == ttls - {key};
        }
        return true;
      }
      return false;
    }
  }
}

/** What the local cache's operations promise. */
module CacheProperties {
  import opened Wrappers
  import opened Cache

  /** A key that holds no value reads as missing, and the read changes nothing. */
  lemma GetMissing<V>(st: Store<V>, key: string, now: int)
    requires key !in st.cache
    ensures CacheGet(st, key, now) == (st, None)
  {
  }

  /**
   * After `set(key, value, ttl)` with a truthy `ttl` at time `t`, a read at
   * `now` finds the value exactly while `now <= t + ttl` (the boundary second
   * still hits); later, the read misses and leaves no trace of the key.
   */
  lemma SetThenGet<V>(st: Store<V>, key: string, value: V, ttl: int, t: int, now: int)
    requires ttl != 0 && Representable(t + ttl)
    ensures var written := CacheSet(st, key, value, Some(ttl), t);
      var (after, found) := CacheGet(written, key, now);
      && (found == Some(value) <==> now <= t + ttl)
      && (found.None? <==> now > t + ttl)
      && (now <= t + ttl ==> after == written)
      && (now > t + ttl ==> after.cache == st.cache - {key} && after.ttls == st.ttls - {key})
  {
    var written := CacheSet(st, key, value, Some(ttl), t);
    assert written.cache[key] == value && written.ttls[key] == t + ttl;
    if now > t + ttl {
      assert written.cache - {key} == st.cache - {key};
      assert written.ttls - {key} == st.ttls - {key};
    }
  }

  /**
   * When the expiry `t + ttl` overflows `datetime`, `set` reports failure yet
   * the value is stored and the key keeps its earlier expiry, so a read finds
   * the new value exactly while that earlier expiry has not passed.
   */
  lemma SetOverflow<V>(st: Store<V>, key: string, value: V, ttl: int, t: int, now: int)
    requires ttl != 0 && !Representable(t + ttl)
    ensures !SetSucceeds(Some(ttl), t)
    ensures CacheSet(st, key, value, Some(ttl), t) == Store(st.cache[key := value], st.ttls)
    ensures CacheGet(CacheSet(st, key, value, Some(ttl), t), key, now).1 == Some(value)
      <==> key !in st.ttls || now <= st.ttls[key]
  {
  }

  /**
   * `set` without a truthy `ttl` writes no expiry and keeps the key's earlier
   * one, so the new value still expires when the old entry would have.
   */
  lemma SetWithoutTtl<V>(st: Store<V>, key: string, value: V, ttl: Option<int>, t: int, now: int)
    requires !HasTtl(ttl)
    ensures CacheSet(st, key, value, ttl, t).ttls == st.ttls
    ensures CacheGet(CacheSet(st, key, value, ttl, t), key, now).1 == Some(value)
      <==> key !in st.ttls || now <= st.ttls[key]
  {
  }

  /** A read of an expired entry misses and removes its value and its expiry. */
  lemma GetEvicts<V>(st: Store<V>, key: string, now: int)
    requires key in st.cache && Expired(st, key, now)
    ensures var (after, found) := CacheGet(st, key, now);
      found.None? && key !in after.cache && key !in after.ttls
  {
  }

  /**
   * `delete` reports true iff a value was there; afterwards the key holds no
   * value, and a delete that found one also dropped the expiry.
   */
  lemma DeleteRemoves<V>(st: Store<V>, key: string)
    ensures var (after, deleted) := CacheDelete(st, key);
      (deleted <==> key in st.cache) && key !in after.cache && (deleted ==> key !in after.ttls)
  {
  }

  /** Deleting twice: the second delete finds nothing. */
  lemma DeleteTwice<V>(st: Store<V>, key: string)
    ensures !CacheDelete(CacheDelete(st, key).0, key).1
  {
  }

  /** Reads, writes and deletes of one key leave every other key's value and expiry as they were. */
  lemma OtherKeysUnchanged<V>(st: Store<V>, key: string, other: string, value: V, ttl: Option<int>, now: int)
    requires other != key
    ensures var after := CacheGet(st, key, now).0;
      (other in after.cache <==> other in st.cache) && (other in after.ttls <==> other in st.ttls)
      && (other in st.cache ==> after.cache[other] == st.cache[other])
      && (other in st.ttls ==> after.ttls[other] == st.ttls[other])
    ensures var after := CacheSet(st, key, value, ttl, now);
      (other in after.cache <==> other in st.cache) && (other in after.ttls <==> other in st.ttls)
      && (other in st.cache ==> after.cache[other] == st.cache[other])
      && (other in st.ttls ==> after.ttls[other] == st.ttls[other])
    ensures var after := CacheDelete(st, key).0;
      (other in after.cache <==> other in st.cache) && (other in after.ttls <==> other in st.ttls)
      && (other in st.cache ==> after.cache[other] == st.cache[other])
      && (other in st.ttls ==> after.ttls[other] == st.ttls[other])
  {
  }

  /** Every operation keeps "a key with an expiry holds a value". */
  lemma ConsistencyPreserved<V>(st: Store<V>, key: string, value: V, ttl: Option<int>, now: int)
    requires Consistent(st)
    ensures Consistent(CacheGet(st, key, now).0)
    ensures Consistent(CacheSet(st, key, value, ttl, now))
    ensures Consistent(CacheDelete(st, key).0)
  {
  }
}
