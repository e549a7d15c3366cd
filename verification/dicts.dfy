/** Python's `dict` keeps its keys in insertion order: assigning to an
    existing key keeps its position, a new key goes to the end, `del`
    removes the key from the order. `Dict` models such a dictionary as the
    sequence of its keys in order plus the map from keys to values. Every
    key type of the model is a value type, hence `K(!new)`. */
module Dicts {

  datatype Dict<K(!new), V> = Dict(keys: seq<K>, items: map<K, V>)
  {
    /** Keys are distinct and are exactly the keys of the map. */
    ghost predicate Valid() {
      && Distinct(keys)
      && (forall k :: k in keys <==> k in items)
    }

    /** `d[k] = v`: an existing key keeps its place, a new key goes last. */
    function Put(k: K, v: V): (d: Dict<K, V>)
      ensures Valid() ==> d.Valid()
      ensures d.items == items[k := v]
      ensures k in items ==> d.keys == keys
      ensures k !in items ==> d.keys == keys + [k]
    {
      if k in items then Dict(keys, items[k := v]) else Dict(keys + [k], items[k := v])
    }

    /** `del d[k]`: the other keys keep their relative order. */
    function Remove(k: K): (d: Dict<K, V>)
      requires Valid()
      ensures d.Valid()
      ensures d.items == items - {k}
      ensures d.keys == Without(keys, k)
    {
      WithoutDistinct(keys, k);
      Dict(Without(keys, k), items - {k})
    }

    /** `list(d.values())`: the values in key order. */
    function Values(): (vs: seq<V>)
      requires Valid()
      ensures |vs| == |keys|
      ensures forall i :: 0 <= i < |keys| ==> vs[i] == items[keys[i]]
      ensures forall k :: k in items ==> items[k] in vs
    {
      var vs := ValuesOf(keys);
      assert forall k :: k in items ==> items[k] in vs by {
        forall k | k in items
          ensures items[k] in vs
        {
          var i :| 0 <= i < |keys| && keys[i] == k;
          assert vs[i] == items[k];
        }
      }
      vs
    }

    function ValuesOf(ks: seq<K>): (vs: seq<V>)
      requires forall k :: k in ks ==> k in items
      ensures |vs| == |ks|
      ensures forall i :: 0 <= i < |ks| ==> vs[i] == items[ks[i]]
    {
      if ks == [] then [] else ValuesOf(ks[..|ks| - 1]) + [items[ks[|ks| - 1]]]
    }
  }

  /** The empty dictionary `{}`. */
  function Empty<K(!new), V>(): (d: Dict<K, V>)
    ensures d.Valid() && d.keys == [] && d.items == map[]
  {
    Dict([], map[])
  }

  /** No element occurs twice. */
  ghost predicate Distinct<T>(s: seq<T>) {
    forall i, j :: 0 <= i < j < |s| ==> s[i] != s[j]
  }

  /** `ks` with every occurrence of `k` removed, the rest in order. */
  function Without<K(==, !new)>(ks: seq<K>, k: K): (r: seq<K>)
    ensures forall x :: x in r <==> x in ks && x != k
  {
    if ks == [] then []
    else if ks[0] == k then Without(ks[1..], k)
    else [ks[0]] + Without(ks[1..], k)
  }

  lemma {:induction false} WithoutDistinct<K(!new)>(ks: seq<K>, k: K)
    requires Distinct(ks)
    ensures Distinct(Without(ks, k))
  {
    if ks != [] {
      WithoutDistinct(ks[1..], k);
      assert ks[0] !in ks[1..];
    }
  }
}
