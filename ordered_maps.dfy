/** An insertion-ordered dictionary, as Python's `dict` and Caffe's `NetSpec` keep their entries. */
module OrderedMaps {

  datatype OrderedMap<K(==,!new), V> = OrderedMap(keys: seq<K>, vals: map<K, V>)
  {
    /** Keys in insertion order, each once, and exactly the keys that have a value. */
    ghost predicate Valid()
    {
      && (forall i, j :: 0 <= i < j < |keys| ==> keys[i] != keys[j])
      && (forall k :: k in vals <==> k in keys)
    }

    /** `d[k] = v`: a new key goes to the end, an existing key keeps its place and gets the new value. */
    function Put(k: K, v: V): (m: OrderedMap<K, V>)
      ensures Valid() ==> m.Valid()
      ensures m.vals == vals[k := v]
      ensures k in vals ==> m.keys == keys
      ensures k !in vals ==> m.keys == keys + [k]
    {
      if k in vals then OrderedMap(keys, vals[k := v]) else OrderedMap(keys + [k], vals[k := v])
    }

    /** `del d[k]` for a present key: the key leaves the order, the others keep theirs. */
    function Remove(k: K): (m: OrderedMap<K, V>)
      requires Valid() && k in vals
      ensures m.Valid()
      ensures m.vals == vals - {k}
      ensures m.keys == RemoveFirst(keys, k)
    {
      RemoveFirstValid(keys, vals, k);
      OrderedMap(RemoveFirst(keys, k), vals - {k})
    }
  }

  /** `keys` without the first occurrence of `k`, the others in their order. */
  function RemoveFirst<K(==)>(keys: seq<K>, k: K): (r: seq<K>)
    ensures |r| == if k in keys then |keys| - 1 else |keys|
  {
    if keys == [] then [] else if keys[0] == k then keys[1..] else [keys[0]] + RemoveFirst(keys[1..], k)
  }

  lemma {:induction false} RemoveFirstValid<K(!new), V>(keys: seq<K>, vals: map<K, V>, k: K)
    requires OrderedMap(keys, vals).Valid() && k in vals
    ensures OrderedMap(RemoveFirst(keys, k), vals - {k}).Valid()
  {
    RemoveFirstElements(keys, k);
  }

  lemma {:induction false} RemoveFirstElements<K>(keys: seq<K>, k: K)
    requires forall i, j :: 0 <= i < j < |keys| ==> keys[i] != keys[j]
    ensures var r := RemoveFirst(keys, k);
      (forall x :: x in r <==> x in keys && x != k) && (forall i, j :: 0 <= i < j < |r| ==> r[i] != r[j])
  {
    if keys != [] && keys[0] != k {
      RemoveFirstElements(keys[1..], k);
      var r := RemoveFirst(keys, k);
      assert r == [keys[0]] + RemoveFirst(keys[1..], k);
      assert keys[0] !in keys[1..];
    }
  }

  function Empty<K(==,!new), V>(): (m: OrderedMap<K, V>)
    ensures m.Valid() && m.vals == map[] && m.keys == []
  {
    OrderedMap([], map[])
  }
}
