/** A Python `dict` as its entries together with the order in which keys were
    first inserted, so that `values()` and every comprehension or `next(...)`
    over it see the elements in the order CPython yields them. */
module PyDict {
  import opened Common
  import opened Seqs

  datatype Dict<K(==,!new), V> = Dict(order: seq<K>, entries: map<K, V>) {
    /** Every key appears once in `order`, and `order` holds exactly the keys. */
    ghost predicate Valid() {
      Distinct(order) && forall k :: k in entries <==> k in order
    }

    /** `len(d)` */
    function Size(): nat {
      |order|
    }

    /** `list(d.values())` */
    function Values(): (r: seq<V>)
      requires Valid()
      ensures |r| == |order|
      ensures forall i :: 0 <= i < |order| ==> r[i] == entries[order[i]]
    {
      seq(|order|, i requires 0 <= i < |order| => entries[order[i]])
    }

    /** `d.get(k)` */
    function Get(k: K): (r: Option<V>)
      ensures r.Some? <==> k in entries
      ensures r.Some? ==> r.value == entries[k]
    {
      if k in entries then Some(entries[k]) else None
    }

    /** `d[k] = v`: a new key goes to the end, an existing key keeps its place. */
    function Put(k: K, v: V): (r: Dict<K, V>)
      requires Valid()
      ensures r.Valid()
      ensures r.entries == entries[k := v]
      ensures k in entries ==> r.order == order
      ensures k !in entries ==> r.order == order + [k]
    {
      if k in entries then Dict(order, entries[k := v]) else Dict(order + [k], entries[k := v])
    }

    /** `d.pop(k, None)` for its effect on `d`: the other keys keep their
        order. */
    function Pop(k: K): (r: Dict<K, V>)
      requires Valid()
      ensures r.Valid()
      ensures r.entries == entries - {k}
      ensures k in entries ==> r.order == Filter(order, Other(k))
      ensures k !in entries ==> r == this
    {
      if k in entries then
        var o := Filter(order, Other(k));
        assert Distinct(o) by { FilterKeepsDistinct(order, k); }
        Dict(o, entries - {k})
      else this
    }
  }

  /** The test that keeps every key but `k`. */
  function Other<K(==)>(k: K): K -> bool {
    x => x != k
  }

  function Empty<K(==,!new), V>(): (r: Dict<K, V>)
    ensures r.Valid() && r.entries == map[] && r.Values() == []
  {
    Dict([], map[])
  }

  lemma {:induction false} FilterKeepsDistinct<K>(s: seq<K>, k: K)
    requires Distinct(s)
    ensures Distinct(Filter(s, Other(k)))
  {
    if s != [] {
      assert Distinct(s[1..]);
      FilterKeepsDistinct(s[1..], k);
      assert s[0] !in s[1..];
      assert s[0] !in Filter(s[1..], Other(k));
    }
  }

  /** `len(list(d.values()))` is the number of entries. */
  lemma SizeIsNumberOfKeys<K(!new), V>(d: Dict<K, V>)
    requires d.Valid()
    ensures |d.Values()| == |d.entries|
  {
    DistinctCard(d.order);
    assert (set x | x in d.order) == d.entries.Keys;
  }

  /** `values()` holds exactly the stored values. */
  lemma ValuesAreStored<K(!new), V(!new)>(d: Dict<K, V>)
    requires d.Valid()
    ensures forall v :: v in d.Values() <==> v in d.entries.Values
  {
    forall v | v in d.entries.Values ensures v in d.Values() {
      var k :| k in d.entries && d.entries[k] == v;
      var i :| 0 <= i < |d.order| && d.order[i] == k;
      assert d.Values()[i] == v;
    }
  }

  /** A comprehension over `values()` keeps exactly the stored values it accepts. */
  lemma FilterValues<K(!new), V(!new)>(d: Dict<K, V>, p: V -> bool)
    requires d.Valid()
    ensures forall v :: v in Filter(d.Values(), p) <==> v in d.entries.Values && p(v)
  {
    ValuesAreStored(d);
    FilterMembers(d.Values(), p);
  }

  /** `next(...)` over `values()` finds an accepted stored value exactly when one exists. */
  lemma FirstValue<K(!new), V(!new)>(d: Dict<K, V>, p: V -> bool)
    requires d.Valid()
    ensures First(d.Values(), p).None? <==> forall v :: v in d.entries.Values ==> !p(v)
    ensures First(d.Values(), p).Some? ==>
              First(d.Values(), p).value in d.entries.Values && p(First(d.Values(), p).value)
  {
    ValuesAreStored(d);
    var s := d.Values();
    if First(s, p).None? {
      forall v | v in d.entries.Values ensures !p(v) {
        assert v in s;
      }
    }
  }

  /** Inserting a new key appends its value to `values()`. */
  lemma ValuesPutNew<K(!new), V>(d: Dict<K, V>, k: K, v: V)
    requires d.Valid() && k !in d.entries
    ensures d.Put(k, v).Values() == d.Values() + [v]
  {
    var e := d.Put(k, v);
    assert |e.Values()| == |d.Values()| + 1;
    forall i | 0 <= i < |d.order| ensures e.Values()[i] == d.Values()[i] {
      assert d.order[i] != k;
    }
  }
}
