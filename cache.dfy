/** The two-tier TTL cache of `src/lib/cache.ts`: an insertion-ordered memory
    tier that expires entries lazily and evicts its oldest entry at capacity, a
    persistent tier over a prefixed key-value store that may be unavailable,
    and the manager that reads memory first and writes both. The clock is the
    `now` argument of each operation. */
module Cache {
  import opened JsRuntime
  import opened OrderedMaps

  // CACHE_CONFIG
  const STOCK_DATA_TTL: int := 5 * 60 * 1000
  const MAX_CACHE_SIZE: nat := 100
  const STORAGE_PREFIX: string := "stock_app_cache_"

  // CACHE_KEYS
  const ALL_STOCKS: string := "all_stocks"

  function SearchResultsKey(query: string): string
  {
    "search_" + query
  }

  function StockByCodeKey(code: string): string
  {
    "stock_" + code
  }

  /** `CacheItem<T>` */
  datatype Item<V> = Item(data: V, timestamp: int, ttl: int)

  /** `now - item.timestamp > item.ttl`: an entry exactly `ttl` old is still served. */
  predicate Expired<V>(item: Item<V>, now: int)
  {
    now - item.timestamp > item.ttl
  }

  type Table<V> = OrderedMap<string, Item<V>>

  // ================================================================ memory tier

  /** The first step of `MemoryCache.set`: at capacity the oldest key is deleted,
      unless it is the empty string, which the test `if (oldestKey)` lets through. */
  function Evict<V>(c: Table<V>): (r: Table<V>)
    requires c.Valid()
    ensures r.Valid()
  {
    if c.Size() >= MAX_CACHE_SIZE && c.keys[0] != "" then Remove(c, c.keys[0]) else c
  }

  /** The table after `MemoryCache.set(key, data, ttl)` at time `now`. */
  function Stored<V>(c: Table<V>, key: string, data: V, ttl: int, now: int): (r: Table<V>)
    requires c.Valid()
    ensures r.Valid()
  {
    Put(Evict(c), key, Item(data, now, ttl))
  }

  /** What `MemoryCache.get(key)` returns at time `now`. */
  function Live<V>(c: Table<V>, key: string, now: int): Option<V>
  {
    if key in c.values && !Expired(c.values[key], now) then Some(c.values[key].data) else None
  }

  /** The table after `MemoryCache.get(key)`: an expired entry is deleted. */
  function Expire<V>(c: Table<V>, key: string, now: int): (r: Table<V>)
    requires c.Valid()
    ensures r.Valid()
  {
    if key in c.values && Expired(c.values[key], now) then Remove(c, key) else c
  }

  /** The keys whose entries are still within their ttl at `now`. */
  function Unexpired<V>(c: Table<V>, now: int): string -> bool
  {
    k => k in c.values && !Expired(c.values[k], now)
  }

  /** The table after `MemoryCache.cleanup()`: the unexpired entries, in their order. */
  function Sweep<V>(c: Table<V>, now: int): (r: Table<V>)
    requires c.Valid()
    ensures r.Valid()
  {
    FilterDistinct(c.keys, Unexpired(c, now));
    OrderedMap(Filter(c.keys, Unexpired(c, now)),
               map k | k in c.values && !Expired(c.values[k], now) :: c.values[k])
  }

  /** One step of a filtering walk over `ks` that keeps the key at the cursor. */
  lemma WalkKeeps(ks: seq<string>, i: nat, p: string -> bool)
    requires i < |ks| && p(ks[i])
    ensures Filter(ks[..i], p) + ks[i..] == Filter(ks[..i + 1], p) + ks[i + 1..]
  {
    FilterSnoc(ks, i, p);
    assert ks[i..] == [ks[i]] + ks[i + 1..];
  }

  /** One step of a filtering walk over `ks` that deletes the key at the cursor. */
  lemma WalkDrops(ks: seq<string>, i: nat, p: string -> bool)
    requires Distinct(ks) && i < |ks| && !p(ks[i])
    ensures Without(Filter(ks[..i], p) + ks[i..], ks[i]) == Filter(ks[..i + 1], p) + ks[i + 1..]
  {
    var kept, key := Filter(ks[..i], p), ks[i];
    FilterSnoc(ks, i, p);
    forall j | 0 <= j < |kept| ensures kept[j] != key {
      assert kept[j] in ks[..i];
    }
    forall j | i + 1 <= j < |ks| ensures ks[j] != key { }
    assert ks[i + 1..] == ks[i..][1..];
    assert kept + ks[i..] == kept + [key] + ks[i + 1..];
    WithoutBetween(kept, key, ks[i + 1..]);
  }

  /** The state of `cleanup` after it has visited the first `i` keys of `c0`:
      the unexpired ones among them, then the unvisited ones, with their items. */
  ghost predicate Walked<V>(c0: Table<V>, c: Table<V>, i: nat, now: int)
  {
    c0.Valid() && c.Valid() && i <= |c0.keys|
    && c.keys == Filter(c0.keys[..i], Unexpired(c0, now)) + c0.keys[i..]
    && forall k :: k in c.values ==> k in c0.values && c.values[k] == c0.values[k]
  }

  lemma CleanupStep<V>(c0: Table<V>, c: Table<V>, i: nat, now: int)
    requires Walked(c0, c, i, now) && i < |c0.keys|
    ensures c0.keys[i] in c.values
    ensures var key := c0.keys[i];
      Walked(c0, if Expired(c.values[key], now) then Remove(c, key) else c, i + 1, now)
  {
    var ks, live, key := c0.keys, Unexpired(c0, now), c0.keys[i];
    assert c.keys[|Filter(ks[..i], live)|] == key;
    if Expired(c.values[key], now) {
      WalkDrops(ks, i, live);
    } else {
      WalkKeeps(ks, i, live);
    }
  }

  lemma CleanupDone<V>(c0: Table<V>, c: Table<V>, now: int)
    requires Walked(c0, c, |c0.keys|, now)
    ensures c == Sweep(c0, now)
  {
    assert c0.keys[..|c0.keys|] == c0.keys;
  }

  /** `MemoryCache`: a `Map` from key to item, in insertion order. */
  class MemoryCache<V> {
    var cache: Table<V>

    ghost predicate Valid()
      reads this
    {
      cache.Valid()
    }

    constructor ()
      ensures Valid() && cache == Empty()
    {
      cache := Empty();
    }

    method Set(key: string, data: V, ttl: int, now: int)
      requires Valid()
      modifies this
      ensures Valid()
      ensures cache == Stored(old(cache), key, data, ttl, now)
    {
      if cache.Size() >= MAX_CACHE_SIZE {
        var oldestKey := cache.keys[0];
        if oldestKey != "" {
          cache := Remove(cache, oldestKey);
        }
      }
      cache := Put(cache, key, Item(data, now, ttl));
    }

    method Get(key: string, now: int) returns (r: Option<V>)
      requires Valid()
      modifies this
      ensures Valid()
      ensures r == Live(old(cache), key, now)
      ensures cache == Expire(old(cache), key, now)
    {
      if key !in cache.values {
        return None;
      }
      var item := cache.values[key];
      if now - item.timestamp > item.ttl {
        cache := Remove(cache, key);
        return None;
      }
      return Some(item.data);
    }

    method Has(key: string, now: int) returns (b: bool)
      requires Valid()
      modifies this
      ensures Valid()
      ensures b == Live(old(cache), key, now).Some?
      ensures cache == Expire(old(cache), key, now)
    {
      var r := Get(key, now);
      b := r.Some?;
    }

    method Delete(key: string) returns (existed: bool)
      requires Valid()
      modifies this
      ensures Valid()
      ensures existed == (key in old(cache.values))
      ensures cache == Remove(old(cache), key)
    {
      existed := key in cache.values;
      cache := Remove(cache, key);
    }

    method Clear()
      modifies this
      ensures Valid() && cache == Empty()
    {
      cache := Empty();
    }

    /** Walks the entries in order and deletes each expired one. */
    method Cleanup(now: int)
      requires Valid()
      modifies this
      ensures Valid()
      ensures cache == Sweep(old(cache), now)
    {
      var c0 := cache;
      var i := 0;
      while i < |c0.keys|
        invariant 0 <= i <= |c0.keys|
        invariant Walked(c0, cache, i, now)
      {
        var key := c0.keys[i];
        CleanupStep(c0, cache, i, now);
        var item := cache.values[key];
        if now - item.timestamp > item.ttl {
          cache := Remove(cache, key);
        }
        i := i + 1;
      }
      CleanupDone(c0, cache, now);
    }
  }

  // ================================================================ persistent tier

  /** What one storage slot holds: a `CacheItem` in JSON, the empty string
      (falsy, so `get` and `cleanup` skip it), or text that `JSON.parse` rejects. */
  datatype Slot<V> = Entry(item: Item<V>) | Blank | Unparsable

  /** The key `isLocalStorageAvailable()` writes and removes again on every call. */
  const PROBE_KEY: string := "__localStorage_test__"

  /** The store after a successful availability probe: the probe key is gone,
      whatever it held before. */
  function Probed<V>(storage: map<string, Slot<V>>): map<string, Slot<V>>
  {
    storage - {PROBE_KEY}
  }

  /** `CACHE_CONFIG.STORAGE_PREFIX + key` */
  function StorageKey(key: string): string
  {
    STORAGE_PREFIX + key
  }

  predicate Prefixed(k: string)
  {
    StartsWith(k, STORAGE_PREFIX)
  }

  /** A slot that `get` and `cleanup` throw away: unparsable, or past its ttl. */
  predicate Stale<V>(slot: Slot<V>, now: int)
  {
    slot.Unparsable? || (slot.Entry? && Expired(slot.item, now))
  }

  /** The storage after `PersistentCache.set`: nothing happens when storage is unavailable. */
  function Written<V>(available: bool, storage: map<string, Slot<V>>, key: string, data: V, ttl: int, now: int): map<string, Slot<V>>
  {
    if available then Probed(storage)[StorageKey(key) := Entry(Item(data, now, ttl))] else storage
  }

  /** What `PersistentCache.get(key)` returns at time `now`. */
  function Loaded<V>(available: bool, storage: map<string, Slot<V>>, key: string, now: int): Option<V>
  {
    var sk := StorageKey(key);
    if available && sk in storage && storage[sk].Entry? && !Stale(storage[sk], now) then Some(storage[sk].item.data) else None
  }

  /** The storage after `PersistentCache.delete(key)`. */
  function Dropped<V>(available: bool, storage: map<string, Slot<V>>, key: string): map<string, Slot<V>>
  {
    if available then Probed(storage) - {StorageKey(key)} else storage
  }

  /** The storage after `PersistentCache.get(key)`: a stale slot is removed; a blank one stays. */
  function Discarded<V>(available: bool, storage: map<string, Slot<V>>, key: string, now: int): map<string, Slot<V>>
  {
    var sk := StorageKey(key);
    if !available then storage
    else if sk in storage && Stale(storage[sk], now) then Dropped(available, storage, key)
    else Probed(storage)
  }

  /** The storage after `PersistentCache.clear()`: every prefixed key is gone, the rest untouched. */
  function Cleared<V>(available: bool, storage: map<string, Slot<V>>): map<string, Slot<V>>
  {
    if available then map k | k in Probed(storage) && !Prefixed(k) :: storage[k] else storage
  }

  /** The storage after `PersistentCache.cleanup()`: stale prefixed slots are gone. */
  function Purged<V>(available: bool, storage: map<string, Slot<V>>, now: int): map<string, Slot<V>>
  {
    if available then map k | k in Probed(storage) && !(Prefixed(k) && Stale(storage[k], now)) :: storage[k]
    else storage
  }

  /** `PersistentCache` over the browser's local storage, which holds other
      keys too. `available` is what `isLocalStorageAvailable()` reports. */
  class PersistentCache<V> {
    var available: bool
    var storage: map<string, Slot<V>>

    constructor (available: bool, storage: map<string, Slot<V>>)
      ensures this.available == available && this.storage == storage
    {
      this.available := available;
      this.storage := storage;
    }

    method Set(key: string, data: V, ttl: int, now: int)
      modifies this
      ensures available == old(available)
      ensures storage == Written(old(available), old(storage), key, data, ttl, now)
    {
      if !available {
        return;
      }
      storage := Probed(storage);
      storage := storage[StorageKey(key) := Entry(Item(data, now, ttl))];
    }

    method Get(key: string, now: int) returns (r: Option<V>)
      modifies this
      ensures available == old(available)
      ensures r == Loaded(old(available), old(storage), key, now)
      ensures storage == Discarded(old(available), old(storage), key, now)
    {
      if !available {
        return None;
      }
      storage := Probed(storage);
      var sk := StorageKey(key);
      ProbeKeyIsForeign(key);
      if sk !in storage {
        return None;
      }
      match storage[sk]
      case Blank =>
        return None;
      case Unparsable =>
        var _ := Delete(key);
        return None;
      case Entry(item) =>
        if now - item.timestamp > item.ttl {
          var _ := Delete(key);
          return None;
        }
        return Some(item.data);
    }

    method Has(key: string, now: int) returns (b: bool)
      modifies this
      ensures available == old(available)
      ensures b == Loaded(old(available), old(storage), key, now).Some?
      ensures storage == Discarded(old(available), old(storage), key, now)
    {
      var r := Get(key, now);
      b := r.Some?;
    }

    method Delete(key: string) returns (b: bool)
      modifies this
      ensures available == old(available)
      ensures b == old(available)
      ensures storage == Dropped(old(available), old(storage), key)
    {
      if !available {
        return false;
      }
      storage := Probed(storage);
      storage := storage - {StorageKey(key)};
      return true;
    }

    /** Removes the prefixed keys one by one. */
    method Clear()
      modifies this
      ensures available == old(available)
      ensures storage == Cleared(old(available), old(storage))
    {
      if !available {
        return;
      }
      var s0 := storage;
      storage := Probed(storage);
      var keys := set k | k in storage && Prefixed(k);
      while keys != {}
        invariant available
        invariant keys <= storage.Keys
        invariant forall k :: k in storage ==> k in Probed(s0) && storage[k] == s0[k]
        invariant forall k :: k in Probed(s0) ==> (k in storage <==> !Prefixed(k) || k in keys)
        decreases keys
      {
        var k :| k in keys;
        storage := storage - {k};
        keys := keys - {k};
      }
      assert storage == Cleared(true, s0);
    }

    /** Visits each prefixed key and removes it when unparsable or expired. */
    method Cleanup(now: int)
      modifies this
      ensures available == old(available)
      ensures storage == Purged(old(available), old(storage), now)
    {
      if !available {
        return;
      }
      var s0 := storage;
      storage := Probed(storage);
      var keys := set k | k in storage && Prefixed(k);
      while keys != {}
        invariant available
        invariant keys <= storage.Keys
        invariant forall k :: k in keys ==> Prefixed(k)
        invariant forall k :: k in storage ==> k in Probed(s0) && storage[k] == s0[k]
        invariant forall k :: k in Probed(s0) ==> (k in storage <==> !(Prefixed(k) && Stale(s0[k], now)) || k in keys)
        decreases keys
      {
        var k :| k in keys;
        var slot := storage[k];
        if slot.Unparsable? || (slot.Entry? && now - slot.item.timestamp > slot.item.ttl) {
          storage := storage - {k};
        }
        keys := keys - {k};
      }
      assert storage == Purged(true, s0, now);
    }
  }

  // ================================================================ manager

  /** `ttl ?? CACHE_CONFIG.STOCK_DATA_TTL`: an omitted ttl takes the default in both tiers. */
  function TtlOrDefault(ttl: Option<int>): int
  {
    if ttl.Some? then ttl.value else STOCK_DATA_TTL
  }

  /** What the manager holds: the memory table, and the store with its availability. */
  datatype Tiers<V> = Tiers(memory: Table<V>, available: bool, storage: map<string, Slot<V>>)

  /** What `CacheManager.get(key)` returns at time `now`: the memory entry, else the stored one. */
  function Read<V>(c: Tiers<V>, key: string, now: int): Option<V>
  {
    if Live(c.memory, key, now).Some? then Live(c.memory, key, now) else Loaded(c.available, c.storage, key, now)
  }

  /** The tiers after `CacheManager.get(key)`: a memory hit changes nothing; on a
      memory miss an expired memory entry and a stale slot are dropped, and a
      stored hit is copied back into memory with the default ttl. */
  function AfterRead<V>(c: Tiers<V>, key: string, now: int): (r: Tiers<V>)
    requires c.memory.Valid()
    ensures r.memory.Valid() && r.available == c.available
  {
    if Live(c.memory, key, now).Some? then c
    else
      var loaded := Loaded(c.available, c.storage, key, now);
      Tiers(if loaded.Some? then Stored(Expire(c.memory, key, now), key, loaded.value, STOCK_DATA_TTL, now)
            else Expire(c.memory, key, now),
            c.available,
            Discarded(c.available, c.storage, key, now))
  }

  /** The tiers after `CacheManager.set(key, data, ttl)`: both tiers written with the same ttl. */
  function AfterWrite<V>(c: Tiers<V>, key: string, data: V, ttl: Option<int>, now: int): (r: Tiers<V>)
    requires c.memory.Valid()
    ensures r.memory.Valid() && r.available == c.available
  {
    Tiers(Stored(c.memory, key, data, TtlOrDefault(ttl), now), c.available,
          Written(c.available, c.storage, key, data, TtlOrDefault(ttl), now))
  }

  /** The tiers after `CacheManager.delete(key)`. */
  function AfterDelete<V>(c: Tiers<V>, key: string): (r: Tiers<V>)
    requires c.memory.Valid()
    ensures r.memory.Valid() && r.available == c.available
  {
    Tiers(Remove(c.memory, key), c.available,
          Dropped(c.available, c.storage, key))
  }

  /** `CacheManager`: memory first, persistent second. */
  class CacheManager<V> {
    const memory: MemoryCache<V>
    const persistent: PersistentCache<V>

    ghost predicate Valid()
      reads this, memory
    {
      memory.Valid()
    }

    ghost function State(): Tiers<V>
      reads this, memory, persistent
    {
      Tiers(memory.cache, persistent.available, persistent.storage)
    }

    constructor (available: bool, storage: map<string, Slot<V>>)
      ensures Valid() && fresh(memory) && fresh(persistent)
      ensures memory.cache == Empty()
      ensures persistent.available == available && persistent.storage == storage
    {
      memory := new MemoryCache();
      persistent := new PersistentCache(available, storage);
    }

    /** Writes through to both tiers with the same ttl. */
    method Set(key: string, data: V, ttl: Option<int>, now: int)
      requires Valid()
      modifies memory, persistent
      ensures Valid()
      ensures State() == AfterWrite(old(State()), key, data, ttl, now)
    {
      memory.Set(key, data, TtlOrDefault(ttl), now);
      persistent.Set(key, data, TtlOrDefault(ttl), now);
    }

    /** A memory hit is returned without consulting storage. On a memory miss a
        persistent hit is copied back into memory with the default ttl and a
        fresh timestamp. */
    method Get(key: string, now: int) returns (r: Option<V>)
      requires Valid()
      modifies memory, persistent
      ensures Valid()
      ensures r == Read(old(State()), key, now)
      ensures State() == AfterRead(old(State()), key, now)
    {
      r := memory.Get(key, now);
      if r.Some? {
        return;
      }
      r := persistent.Get(key, now);
      if r.Some? {
        memory.Set(key, r.value, STOCK_DATA_TTL, now);
      }
    }

    /** `memory.has(key) || persistent.has(key)`: storage is asked only on a memory miss. */
    method Has(key: string, now: int) returns (b: bool)
      requires Valid()
      modifies memory, persistent
      ensures Valid()
      ensures persistent.available == old(persistent.available)
      ensures b == (Live(old(memory.cache), key, now).Some?
                    || Loaded(old(persistent.available), old(persistent.storage), key, now).Some?)
      ensures memory.cache == Expire(old(memory.cache), key, now)
      ensures persistent.storage == if Live(old(memory.cache), key, now).Some? then old(persistent.storage)
                                    else Discarded(old(persistent.available), old(persistent.storage), key, now)
    {
      b := memory.Has(key, now);
      if !b {
        b := persistent.Has(key, now);
      }
    }

    /** Deletes from both tiers and reports whether either did. */
    method Delete(key: string) returns (b: bool)
      requires Valid()
      modifies memory, persistent
      ensures Valid()
      ensures State() == AfterDelete(old(State()), key)
      ensures b == (key in old(memory.cache.values) || old(persistent.available))
    {
      var memoryDeleted := memory.Delete(key);
      var persistentDeleted := persistent.Delete(key);
      b := memoryDeleted || persistentDeleted;
    }

    method Clear()
      requires Valid()
      modifies memory, persistent
      ensures Valid()
      ensures persistent.available == old(persistent.available)
      ensures memory.cache == Empty()
      ensures persistent.storage == Cleared(old(persistent.available), old(persistent.storage))
    {
      memory.Clear();
      persistent.Clear();
    }

    method Cleanup(now: int)
      requires Valid()
      modifies memory, persistent
      ensures Valid()
      ensures persistent.available == old(persistent.available)
      ensures memory.cache == Sweep(old(memory.cache), now)
      ensures persistent.storage == Purged(old(persistent.available), old(persistent.storage), now)
    {
      memory.Cleanup(now);
      persistent.Cleanup(now);
    }
  }

  // ================================================================ properties

  /** A memory entry is served while `now - timestamp <= ttl`, the boundary included:
      `set` followed by `get` returns the data exactly within the ttl. */
  lemma {:induction false} MemoryRoundTrip<V>(c: Table<V>, key: string, data: V, ttl: int, t: int, t': int)
    requires c.Valid()
    ensures Live(Stored(c, key, data, ttl, t), key, t') == if t' - t <= ttl then Some(data) else None
  {
    var e := Evict(c);
    assert key in Put(e, key, Item(data, t, ttl)).values;
  }

  /** An expired read deletes its own key only: every other key reads as before,
      at any time, and the remaining keys keep their order. */
  lemma ExpireOnlyThatKey<V>(c: Table<V>, key: string, now: int)
    requires c.Valid()
    ensures forall k, t | k != key :: Live(Expire(c, key, now), k, t) == Live(c, k, t)
    ensures Expire(c, key, now).keys == c.keys || Expire(c, key, now).keys == Without(c.keys, key)
    ensures Live(c, key, now).None? ==> key !in Expire(c, key, now).values
  {
  }

  /** `set` never grows the memory tier past `MAX_CACHE_SIZE`, except when the
      oldest key is the empty string (which the truthiness test refuses to
      evict) and the new key is absent. */
  lemma {:induction false} StoredBounded<V>(c: Table<V>, key: string, data: V, ttl: int, now: int)
    requires c.Valid() && c.Size() <= MAX_CACHE_SIZE
    requires c.Size() < MAX_CACHE_SIZE || c.keys[0] != "" || key in c.values
    ensures Stored(c, key, data, ttl, now).Size() <= MAX_CACHE_SIZE
  {
    if c.Size() >= MAX_CACHE_SIZE && c.keys[0] != "" {
      assert c.keys[0] in c.values;
      RemoveSize(c, c.keys[0]);
    }
  }

  /** The empty-string oldest key at capacity: `set` of a new key grows the tier to 101. */
  lemma {:induction false} EmptyOldestKeyOverflows<V>(c: Table<V>, key: string, data: V, ttl: int, now: int)
    requires c.Valid() && c.Size() == MAX_CACHE_SIZE && c.keys[0] == "" && key !in c.values
    ensures Stored(c, key, data, ttl, now).Size() == MAX_CACHE_SIZE + 1
  {
  }

  /** Overwriting a present key below capacity keeps every key where it was and
      refreshes the entry's timestamp and ttl. */
  lemma OverwriteKeepsPlace<V>(c: Table<V>, key: string, data: V, ttl: int, now: int)
    requires c.Valid() && key in c.values && c.Size() < MAX_CACHE_SIZE
    ensures Stored(c, key, data, ttl, now).keys == c.keys
    ensures Stored(c, key, data, ttl, now).values[key] == Item(data, now, ttl)
  {
  }

  /** At capacity, even an overwrite evicts the oldest (non-empty) key first:
      the table loses its first key and keeps the others in order. */
  lemma {:induction false} OverwriteAtCapacityEvicts<V>(c: Table<V>, key: string, data: V, ttl: int, now: int)
    requires c.Valid() && c.Size() >= MAX_CACHE_SIZE && c.keys[0] != "" && key in c.values && key != c.keys[0]
    ensures Stored(c, key, data, ttl, now).keys == c.keys[1..]
    ensures c.keys[0] !in Stored(c, key, data, ttl, now).values
  {
    var e := Remove(c, c.keys[0]);
    assert e.keys == c.keys[1..] by {
      WithoutAt(c.keys, 0);
      assert c.keys[..0] + c.keys[1..] == c.keys[1..];
    }
    assert key in e.values;
    assert Evict(c) == e;
  }

  /** `cleanup` removes exactly the expired entries: afterwards every key reads
      at `now` as it did before, and no expired entry is left. */
  lemma SweepRemovesExactlyExpired<V>(c: Table<V>, now: int)
    requires c.Valid()
    ensures forall k :: Live(Sweep(c, now), k, now) == Live(c, k, now)
    ensures forall k :: k in Sweep(c, now).values <==> k in c.values && !Expired(c.values[k], now)
    ensures Sweep(c, now).Size() <= c.Size()
  {
  }

  /** `CACHE_CONFIG.STORAGE_PREFIX + key` is a prefixed key for every `key`. */
  lemma {:induction false} StorageKeyPrefixed(key: string)
    ensures Prefixed(StorageKey(key))
  {
    assert (STORAGE_PREFIX + key)[..|STORAGE_PREFIX|] == STORAGE_PREFIX;
  }

  /** The probe key is not one of the cache's own keys. */
  lemma ProbeKeyIsForeign(key: string)
    ensures !Prefixed(PROBE_KEY) && StorageKey(key) != PROBE_KEY
  {
    StorageKeyPrefixed(key);
    assert PROBE_KEY[0] != STORAGE_PREFIX[0];
  }

  /** The persistent round trip: a stored entry is served exactly within its ttl
      when storage is available, and never when it is not. */
  lemma PersistentRoundTrip<V>(available: bool, storage: map<string, Slot<V>>, key: string, data: V, ttl: int, t: int, t': int)
    ensures Loaded(available, Written(available, storage, key, data, ttl, t), key, t') ==
      if available && t' - t <= ttl then Some(data) else None
  {
    ProbeKeyIsForeign(key);
  }

  /** Unavailable storage: `set`, `get`, `clear` and `cleanup` change nothing and `get` misses. */
  lemma Unavailable<V>(storage: map<string, Slot<V>>, key: string, data: V, ttl: int, now: int)
    ensures Written(false, storage, key, data, ttl, now) == storage
    ensures Loaded(false, storage, key, now) == None
    ensures Discarded(false, storage, key, now) == storage
    ensures Cleared(false, storage) == storage && Purged(false, storage, now) == storage
  {
  }

  /** `clear` takes away every key the cache wrote and leaves every other key
      of the store alone, except the probe key, which the availability check
      removes. */
  lemma {:induction false} ClearedForgetsCache<V>(storage: map<string, Slot<V>>, key: string, now: int)
    ensures StorageKey(key) !in Cleared(true, storage)
    ensures Loaded(true, Cleared(true, storage), key, now) == None
    ensures forall k | k in storage && !Prefixed(k) && k != PROBE_KEY :: k in Cleared(true, storage) && Cleared(true, storage)[k] == storage[k]
    ensures PROBE_KEY !in Cleared(true, storage)
  {
    StorageKeyPrefixed(key);
  }

  /** `cleanup` never touches unprefixed keys, removes the stale prefixed ones and
      leaves every cache key reading at `now` as before. */
  lemma {:induction false} PurgedKeepsForeignKeys<V>(available: bool, storage: map<string, Slot<V>>, key: string, now: int)
    ensures forall k | k in storage && !Prefixed(k) && k != PROBE_KEY :: k in Purged(available, storage, now) && Purged(available, storage, now)[k] == storage[k]
    ensures available ==> PROBE_KEY !in Purged(available, storage, now)
    ensures available ==> forall k | k in storage && Prefixed(k) :: k in Purged(available, storage, now) <==> !Stale(storage[k], now)
    ensures Loaded(available, Purged(available, storage, now), key, now) == Loaded(available, storage, key, now)
  {
    ProbeKeyIsForeign(key);
  }

  /** A write to one key never changes what another key reads, except that
      the eviction it may do can make that key miss. */
  lemma WriteKeepsOthers<V>(c: Tiers<V>, key: string, data: V, ttl: Option<int>, now: int, k: string, t: int)
    requires c.memory.Valid() && k != key
    ensures Live(AfterWrite(c, key, data, ttl, now).memory, k, t) in {None, Live(c.memory, k, t)}
    ensures Loaded(c.available, AfterWrite(c, key, data, ttl, now).storage, k, t) == Loaded(c.available, c.storage, k, t)
  {
    ProbeKeyIsForeign(k);
    assert StorageKey(k) != StorageKey(key) by {
      assert StorageKey(k)[|STORAGE_PREFIX|..] == k;
      assert StorageKey(key)[|STORAGE_PREFIX|..] == key;
    }
  }

  /** An empty slot is neither served nor thrown away: `get` misses and keeps
      it, and `cleanup` keeps it. */
  lemma BlankSlotKept<V>(storage: map<string, Slot<V>>, key: string, now: int)
    requires StorageKey(key) in storage && storage[StorageKey(key)] == Blank
    ensures Loaded(true, storage, key, now) == None
    ensures StorageKey(key) in Discarded(true, storage, key, now)
    ensures StorageKey(key) in Purged(true, storage, now)
  {
    ProbeKeyIsForeign(key);
  }

  /** The tier fallback: on a memory miss a stored hit is returned and copied
      into memory with the default ttl and a fresh timestamp, so for that ttl
      the next `get` is a memory hit returning the same data and changing nothing. */
  lemma {:induction false} StoredHitCopiedBack<V>(c: Tiers<V>, key: string, v: V, now: int, t': int)
    requires c.memory.Valid()
    requires Live(c.memory, key, now).None? && Loaded(c.available, c.storage, key, now) == Some(v)
    requires t' - now <= STOCK_DATA_TTL
    ensures Read(c, key, now) == Some(v)
    ensures Live(AfterRead(c, key, now).memory, key, t') == Some(v)
    ensures Read(AfterRead(c, key, now), key, t') == Some(v)
    ensures AfterRead(AfterRead(c, key, now), key, t') == AfterRead(c, key, now)
  {
    MemoryRoundTrip(Expire(c.memory, key, now), key, v, STOCK_DATA_TTL, now, t');
  }

  /** The manager's round trip: `set` then `get` within the ttl is a memory hit
      returning the data (the default ttl when none is given), and that read
      changes neither tier. */
  lemma {:induction false} ManagerRoundTrip<V>(c: Tiers<V>, key: string, data: V, ttl: Option<int>, t: int, t': int)
    requires c.memory.Valid() && t' - t <= TtlOrDefault(ttl)
    ensures Read(AfterWrite(c, key, data, ttl, t), key, t') == Some(data)
    ensures AfterRead(AfterWrite(c, key, data, ttl, t), key, t') == AfterWrite(c, key, data, ttl, t)
  {
    MemoryRoundTrip(c.memory, key, data, TtlOrDefault(ttl), t, t');
  }
}
