/** The JavaScript `Map` as the caches use it: keys remember the order in which
    they were first inserted; re-setting a present key keeps its place. */
module OrderedMaps {
  import opened JsRuntime

  datatype OrderedMap<K(==), V> = OrderedMap(keys: seq<K>, values: map<K, V>)
  {
    /** `keys` lists every key of `values` once, oldest first. */
    ghost predicate Valid()
    {
      Distinct(keys) && (forall k :: k in values ==> k in keys) && (forall k :: k in keys ==> k in values)
    }

    /** `Map.prototype.size` */
    function Size(): nat
    {
      |keys|
    }
  }

  function Empty<K(==), V>(): (m: OrderedMap<K, V>)
    ensures m.Valid() && m.Size() == 0
  {
    OrderedMap([], map[])
  }

  /** `Map.prototype.set`: a new key goes last, a present key keeps its place. */
  function Put<K(==), V>(m: OrderedMap<K, V>, k: K, v: V): (r: OrderedMap<K, V>)
    requires m.Valid()
    ensures r.Valid()
  {
    if k in m.values then OrderedMap(m.keys, m.values[k := v])
    else OrderedMap(m.keys + [k], m.values[k := v])
  }

  /** The test `x => x !== k`. */
  function Other<K(==)>(k: K): K -> bool
  {
    x => x != k
  }

  /** The key sequence with `k` taken out. */
  function Without<K(==)>(s: seq<K>, k: K): seq<K>
  {
    Filter(s, Other(k))
  }

  /** `Map.prototype.delete` */
  function Remove<K(==), V>(m: OrderedMap<K, V>, k: K): (r: OrderedMap<K, V>)
    requires m.Valid()
    ensures r.Valid()
  {
    FilterDistinct(m.keys, Other(k));
    OrderedMap(Without(m.keys, k), m.values - {k})
  }

  /** Taking `k` out of `a + [k] + b`, where neither `a` nor `b` holds `k`, leaves `a + b`. */
  lemma {:induction false} WithoutBetween<K>(a: seq<K>, k: K, b: seq<K>)
    requires k !in a && k !in b
    ensures Without(a + [k] + b, k) == a + b
  {
    var p := Other(k);
    FilterKeepsAll(a, p);
    FilterKeepsAll(b, p);
    assert Filter([k], p) == [] by {
      assert [k][..0] == [];
    }
    calc {
      Filter(a + [k] + b, p);
      { FilterAppend(a + [k], b, p); }
      Filter(a + [k], p) + Filter(b, p);
      { FilterAppend(a, [k], p); }
      Filter(a, p) + Filter([k], p) + Filter(b, p);
      { assert a + [] == a; }
      a + b;
    }
  }

  /** Removing a key from a sequence that holds it once, at position `i`, closes the gap. */
  lemma WithoutAt<K>(s: seq<K>, i: nat)
    requires Distinct(s) && i < |s|
    ensures Without(s, s[i]) == s[..i] + s[i + 1..]
  {
    var k, a, b := s[i], s[..i], s[i + 1..];
    assert s == a + [k] + b;
    forall j | 0 <= j < |a| ensures a[j] != k {
      assert a[j] == s[j];
    }
    forall j | 0 <= j < |b| ensures b[j] != k {
      assert b[j] == s[i + 1 + j];
    }
    WithoutBetween(a, k, b);
  }

  /** Deleting a present key shrinks the map by exactly one. */
  lemma RemoveSize<K, V>(m: OrderedMap<K, V>, k: K)
    requires m.Valid() && k in m.values
    ensures Remove(m, k).Size() == m.Size() - 1
  {
    var i :| 0 <= i < |m.keys| && m.keys[i] == k;
    WithoutAt(m.keys, i);
  }
}
