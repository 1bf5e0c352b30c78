/** Insertion-ordered dictionaries: Python's `dict` and `OrderedDict`. */
module OrderedMaps {
  import opened Sequences

  /** `order` lists the keys in insertion order; `values` holds the bindings. */
  datatype OrderedMap<K(==), V> = OrderedMap(order: seq<K>, values: map<K, V>) {

    ghost predicate Valid() {
      NoDup(order) && Elements(order) == values.Keys
    }

    predicate Has(k: K) {
      k in values
    }

    /** `d[k] = v`: rebinding a present key keeps its position. */
    function Put(k: K, v: V): (m: OrderedMap<K, V>) {
      OrderedMap(if k in values then order else order + [k], values[k := v])
    }

    /** `d.pop(k, None)`. */
    function Remove(k: K): (m: OrderedMap<K, V>) {
      OrderedMap(Minus(order, {k}), values - {k})
    }

    /** Removal of several keys at once. */
    function RemoveAll(ks: set<K>): (m: OrderedMap<K, V>) {
      OrderedMap(Minus(order, ks), values - ks)
    }

    lemma PutValid(k: K, v: V)
      requires Valid()
      ensures Put(k, v).Valid()
    {
      assert Elements(Put(k, v).order) == values.Keys + {k};
      if k !in values {
        assert k !in Elements(order);
      }
    }

    lemma RemoveValid(k: K)
      requires Valid()
      ensures Remove(k).Valid()
    {
      RemoveAllValid({k});
    }

    lemma RemoveAllValid(ks: set<K>)
      requires Valid()
      ensures RemoveAll(ks).Valid()
    {
      var r := RemoveAll(ks);
      forall x ensures x in Elements(r.order) <==> x in r.values.Keys {
        assert x in r.order <==> x in order && x !in ks;
        assert x in order <==> x in Elements(order);
      }
    }

    /** Deleting keys one after another is deleting them together. */
    lemma RemoveThenAll(k: K, ks: set<K>)
      ensures Remove(k).RemoveAll(ks) == RemoveAll({k} + ks)
    {
      MinusTwice(order, {k}, ks);
      assert values - {k} - ks == values - ({k} + ks);
    }
  }
}
