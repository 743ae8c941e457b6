/** A JavaScript `Map`: a dictionary that remembers the order in which keys were first set. */
module OrderedMaps {
  import opened Wrappers

  datatype OrderedMap<K(==, !new), V> = OrderedMap(keys: seq<K>, values: map<K, V>) {

    /** Every key appears once in the iteration order, and exactly the stored keys do. */
    ghost predicate Valid() {
      && (forall i, j :: 0 <= i < j < |keys| ==> keys[i] != keys[j])
      && (forall k :: k in values <==> k in keys)
    }

    /** `map.get(k)`. */
    function Get(k: K): Option<V> {
      if k in values then Some(values[k]) else None
    }

    /** `map.set(k, v)`: the value of `k` becomes `v`; a new key goes to the end of the
        iteration order, a known key keeps its place; no other entry changes. */
    function Set(k: K, v: V): (m: OrderedMap<K, V>)
      ensures m.Get(k) == Some(v)
      ensures forall k' :: k' != k ==> m.Get(k') == Get(k')
      ensures k in keys ==> m.keys == keys
      ensures k !in keys ==> m.keys == keys + [k]
      ensures Valid() ==> m.Valid()
    {
      OrderedMap(if k in keys then keys else keys + [k], values[k := v])
    }
  }

  function Empty<K(==, !new), V>(): (m: OrderedMap<K, V>)
    ensures m.Valid() && m.keys == []
    ensures forall k :: m.Get(k) == None
  {
    OrderedMap([], map[])
  }
}
