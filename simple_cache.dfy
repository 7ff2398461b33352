/** The single-tier cache of `src/lib/simpleCache.ts`, the one the stock
    loader uses: an unbounded map from key to entry with one fixed ttl of five
    minutes, expired lazily on read. The clock is the `now` argument. */
module SimpleCaches {
  import opened JsRuntime

  /** `private readonly TTL = 5 * 60 * 1000` */
  const TTL: int := 5 * 60 * 1000

  datatype Entry<V> = Entry(data: V, timestamp: int)

  /** What `get(key)` returns at time `now`: the data while `now - timestamp <= TTL`. */
  function Lookup<V>(m: map<string, Entry<V>>, key: string, now: int): Option<V>
  {
    if key in m && now - m[key].timestamp <= TTL then Some(m[key].data) else None
  }

  /** The map after `get(key)` at time `now`: an expired entry is deleted. */
  function Pruned<V>(m: map<string, Entry<V>>, key: string, now: int): map<string, Entry<V>>
  {
    if key in m && now - m[key].timestamp > TTL then m - {key} else m
  }

  class SimpleCache<V> {
    var cache: map<string, Entry<V>>

    constructor ()
      ensures cache == map[]
    {
      cache := map[];
    }

    /** Stores `data` stamped with `now`, replacing any previous entry for `key`. */
    method Set(key: string, data: V, now: int)
      modifies this
      ensures cache == old(cache)[key := Entry(data, now)]
    {
      cache := cache[key := Entry(data, now)];
    }

    method Get(key: string, now: int) returns (r: Option<V>)
      modifies this
      ensures r == Lookup(old(cache), key, now)
      ensures cache == Pruned(old(cache), key, now)
    {
      if key !in cache {
        return None;
      }
      var item := cache[key];
      if now - item.timestamp > TTL {
        cache := cache - {key};
        return None;
      }
      return Some(item.data);
    }

    /** `get(key) !== null`, with the same expiry side effect. */
    method Has(key: string, now: int) returns (b: bool)
      modifies this
      ensures b == Lookup(old(cache), key, now).Some?
      ensures cache == Pruned(old(cache), key, now)
    {
      var r := Get(key, now);
      b := r.Some?;
    }

    method Delete(key: string)
      modifies this
      ensures cache == old(cache) - {key}
    {
      cache := cache - {key};
    }

    method Clear()
      modifies this
      ensures cache == map[]
    {
      cache := map[];
    }
  }

  // ================================================================ properties

  /** After `set(k, d)` at time `t`, `get(k)` at time `t'` returns `d` exactly when
      `t' - t <= TTL`; the boundary itself is still a hit. */
  lemma SetThenGet<V>(m: map<string, Entry<V>>, key: string, data: V, t: int, t': int)
    ensures Lookup(m[key := Entry(data, t)], key, t') == Some(data) <==> t' - t <= TTL
    ensures t' - t > TTL ==> Lookup(m[key := Entry(data, t)], key, t') == None
  {
  }

  /** A missing key reads as `null` and its read changes nothing. */
  lemma MissingKey<V>(m: map<string, Entry<V>>, key: string, now: int)
    requires key !in m
    ensures Lookup(m, key, now) == None && Pruned(m, key, now) == m
  {
  }

  /** A read deletes at most its own key, and only when it reads `null`: every
      other key reads as before at any time. */
  lemma GetTouchesOnlyItsKey<V>(m: map<string, Entry<V>>, key: string, now: int)
    ensures Pruned(m, key, now).Keys == m.Keys || (Pruned(m, key, now).Keys == m.Keys - {key} && Lookup(m, key, now) == None)
    ensures forall k, t | k != key :: Lookup(Pruned(m, key, now), k, t) == Lookup(m, k, t)
    ensures Lookup(Pruned(m, key, now), key, now) == Lookup(m, key, now)
  {
  }

  /** `set` touches no other key and has no size bound: it always adds or replaces `key`. */
  lemma SetTouchesOnlyItsKey<V>(m: map<string, Entry<V>>, key: string, data: V, now: int)
    ensures forall k, t | k != key :: Lookup(m[key := Entry(data, now)], k, t) == Lookup(m, k, t)
    ensures |m[key := Entry(data, now)].Keys| == if key in m then |m.Keys| else |m.Keys| + 1
  {
    if key !in m {
      assert m[key := Entry(data, now)].Keys == m.Keys + {key};
    } else {
      assert m[key := Entry(data, now)].Keys == m.Keys;
    }
  }

  /** `delete(k)` makes `k` read as `null` and leaves every other key reading as before. */
  lemma DeleteTouchesOnlyItsKey<V>(m: map<string, Entry<V>>, key: string)
    ensures forall t :: Lookup(m - {key}, key, t) == None
    ensures forall k, t | k != key :: Lookup(m - {key}, k, t) == Lookup(m, k, t)
  {
  }
}
