/** Python dictionaries remember the order in which keys were first inserted,
    and the report walks them in that order.  A dictionary built once as a
    literal is modelled as its sequence of key/value entries; a dictionary
    the program fills in step by step is modelled as its keys in insertion
    order together with the map from keys to values. */
module Dict {
  import opened Text

  type Entries<V> = seq<(string, V)>

  /** The keys of the entries, in order. */
  function Keys<V>(es: Entries<V>): seq<string> {
    seq(|es|, i requires 0 <= i < |es| => es[i].0)
  }

  predicate Distinct(ks: seq<string>) {
    forall i, j :: 0 <= i < j < |ks| ==> ks[i] != ks[j]
  }

  lemma KeysAppend<V>(a: Entries<V>, b: Entries<V>)
    ensures Keys(a + b) == Keys(a) + Keys(b)
  {
    assert forall i :: 0 <= i < |a| ==> (a + b)[i] == a[i];
    assert forall i :: |a| <= i < |a| + |b| ==> (a + b)[i] == b[i - |a|];
  }

  datatype Dict<V> = Dict(keys: seq<string>, values: map<string, V>)

  /** The keys are distinct and are exactly the keys that have a value. */
  ghost predicate Valid<V>(d: Dict<V>) {
    Distinct(d.keys) && forall k :: k in d.values <==> k in d.keys
  }

  function Empty<V>(): (d: Dict<V>)
    ensures Valid(d) && d.keys == []
  {
    Dict([], map[])
  }

  /** `d[k] = v`: an existing key keeps its position and takes the new value;
      a new key goes to the end. */
  function Put<V>(d: Dict<V>, k: string, v: V): (r: Dict<V>)
  {
    Dict(if k in d.keys then d.keys else d.keys + [k], d.values[k := v])
  }

  /** Putting keeps the dictionary valid: the key keeps its place or goes
      to the end, it takes the new value, and every other key keeps its own. */
  lemma PutUpdates<V>(d: Dict<V>, k: string, v: V)
    requires Valid(d)
    ensures Valid(Put(d, k, v))
    ensures k in d.keys ==> Put(d, k, v).keys == d.keys
    ensures k !in d.keys ==> Put(d, k, v).keys == d.keys + [k]
    ensures Put(d, k, v).values[k] == v
    ensures forall j :: j in d.values && j != k ==> Put(d, k, v).values[j] == d.values[j]
  {
    if k !in d.keys {
      PutFreshValid(d, k, v);
    }
  }

  /** The entries of `es` put into `d` one after the other. */
  function PutAll<V>(d: Dict<V>, es: Entries<V>): Dict<V>
    decreases |es|, 1
  {
    if es == [] then d else PutLast(d, es)
  }

  /** The last entry put after all the others. */
  function PutLast<V>(d: Dict<V>, es: Entries<V>): Dict<V>
    requires es != []
    decreases |es|, 0
  {
    Put(PutAll(d, es[..|es| - 1]), Last(es).0, Last(es).1)
  }

  /** The dictionary's entries in insertion order, as `d.items()` lists them. */
  function Items<V>(d: Dict<V>): (es: Entries<V>)
    requires Valid(d)
    ensures |es| == |d.keys|
    ensures Keys(es) == d.keys
  {
    seq(|d.keys|, i requires 0 <= i < |d.keys| => (d.keys[i], d.values[d.keys[i]]))
  }

  /** Putting one entry after a batch. */
  lemma PutAllSnoc<V>(d: Dict<V>, es: Entries<V>, k: string, v: V)
    ensures PutAll(d, es + [(k, v)]) == Put(PutAll(d, es), k, v)
  {
    assert (es + [(k, v)])[..|es|] == es;
  }

  /** Putting two batches one after the other is putting their concatenation. */
  lemma {:induction false} PutAllAppend<V>(d: Dict<V>, a: Entries<V>, b: Entries<V>)
    ensures PutAll(PutAll(d, a), b) == PutAll(d, a + b)
    decreases |b|
  {
    if b != [] {
      var init := b[..|b| - 1];
      assert (a + b)[..|a + b| - 1] == a + init;
      assert Last(a + b) == Last(b);
      PutAllAppend(d, a, init);
    } else {
      assert a + b == a;
    }
  }

  /** Putting a batch keeps the dictionary valid, leaves the keys already
      there in their places, and gives every key of the batch a place. */
  lemma {:induction false} PutAllValid<V>(d: Dict<V>, es: Entries<V>)
    requires Valid(d)
    ensures Valid(PutAll(d, es))
    ensures |d.keys| <= |PutAll(d, es).keys|
    ensures forall i :: 0 <= i < |d.keys| ==> PutAll(d, es).keys[i] == d.keys[i]
    ensures forall i :: 0 <= i < |es| ==> es[i].0 in PutAll(d, es).keys
    decreases |es|
  {
    if es != [] {
      var init := es[..|es| - 1];
      PutAllValid(d, init);
      var p := PutAll(d, init);
      PutUpdates(p, Last(es).0, Last(es).1);
      assert PutAll(d, es) == Put(p, Last(es).0, Last(es).1) by {
        assert PutAll(d, es) == PutLast(d, es);
      }
      forall i | 0 <= i < |es| - 1 ensures es[i].0 in p.keys {
        assert es[i] == init[i];
      }
    }
  }

  /** Putting a new key keeps the dictionary valid and appends the key. */
  lemma PutFreshValid<V>(d: Dict<V>, k: string, v: V)
    requires Valid(d) && k !in d.keys
    ensures Put(d, k, v).keys == d.keys + [k] && Valid(Put(d, k, v))
  {
    var ks := d.keys + [k];
    forall i, j | 0 <= i < j < |ks| ensures ks[i] != ks[j] {
      if j < |d.keys| {
        assert ks[i] == d.keys[i] && ks[j] == d.keys[j];
      } else {
        assert ks[i] == d.keys[i] && ks[j] == k;
      }
    }
  }

  /** Putting a new key appends one item. */
  lemma PutFreshItems<V>(d: Dict<V>, k: string, v: V)
    requires Valid(d) && k !in d.keys
    ensures Valid(Put(d, k, v)) && Items(Put(d, k, v)) == Items(d) + [(k, v)]
  {
    PutFreshValid(d, k, v);
    var r := Put(d, k, v);
    var items := Items(r);
    var expected := Items(d) + [(k, v)];
    assert |items| == |expected|;
    forall i | 0 <= i < |items| ensures items[i] == expected[i] {
      if i < |d.keys| {
        assert r.keys[i] == d.keys[i] != k;
      } else {
        assert r.keys[i] == k;
      }
    }
  }

  /** Distinct keys stay distinct without the last entry, and the last key
      is not among the others. */
  lemma DistinctSnoc<V>(es: Entries<V>)
    requires es != [] && Distinct(Keys(es))
    ensures Distinct(Keys(es[..|es| - 1])) && Last(es).0 !in Keys(es[..|es| - 1])
  {
    var n := |es| - 1;
    var ks := Keys(es);
    var init := Keys(es[..n]);
    forall i, j | 0 <= i < j < n ensures init[i] != init[j] {
      assert init[i] == ks[i] && init[j] == ks[j];
    }
    forall i | 0 <= i < n ensures init[i] != Last(es).0 {
      assert init[i] == ks[i] && Last(es).0 == ks[n];
    }
  }

  /** Filling an empty dictionary with entries whose keys are distinct gives
      back exactly those entries, in order. */
  lemma {:induction false} FillFresh<V>(es: Entries<V>)
    requires Distinct(Keys(es))
    ensures Valid(PutAll(Empty(), es)) && Items(PutAll(Empty(), es)) == es
  {
    if es != [] {
      var init := es[..|es| - 1];
      var e := Last(es);
      DistinctSnoc(es);
      FillFresh(init);
      var d := PutAll(Empty(), init);
      assert d.keys == Keys(init);
      PutFreshItems(d, e.0, e.1);
      assert PutAll(Empty(), es) == Put(d, e.0, e.1) by {
        assert PutAll(Empty(), es) == PutLast(Empty(), es);
      }
      assert init + [e] == es;
    }
  }
}
