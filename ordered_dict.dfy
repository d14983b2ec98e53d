/**
 A dictionary that remembers insertion order, as the programs' `timings`
 dictionaries do: assigning to a new key appends it, assigning to a key
 already present replaces its value where it stands, and iteration visits
 the entries oldest first.
 */
module OrderedDict {
  import opened Options

  type Dict<K, V> = seq<(K, V)>

  function Keys<K, V>(d: Dict<K, V>): (ks: seq<K>)
    ensures |ks| == |d|
    ensures forall i :: 0 <= i < |d| ==> ks[i] == d[i].0
  {
    seq(|d|, i requires 0 <= i < |d| => d[i].0)
  }

  predicate DistinctKeys<K(==), V>(d: Dict<K, V>) {
    forall i, j :: 0 <= i < j < |d| ==> d[i].0 != d[j].0
  }

  /** `d[k]`: the value of the first entry for `k`. */
  function Get<K(==), V>(d: Dict<K, V>, k: K): Option<V>
    decreases |d|
  {
    if d == [] then None
    else if d[0].0 == k then Some(d[0].1)
    else Get(d[1..], k)
  }

  /** `d[k] = v`. */
  function Put<K(==), V>(d: Dict<K, V>, k: K, v: V): Dict<K, V>
    decreases |d|
  {
    if d == [] then [(k, v)]
    else if d[0].0 == k then [(k, v)] + d[1..]
    else [d[0]] + Put(d[1..], k, v)
  }

  /** `d[k] = v` for each entry of `entries` in turn. */
  function PutAll<K(==), V>(d: Dict<K, V>, entries: Dict<K, V>): Dict<K, V>
    decreases |entries|
  {
    if entries == [] then d
    else
      var last := entries[|entries| - 1];
      Put(PutAll(d, entries[..|entries| - 1]), last.0, last.1)
  }

  /** A new key goes to the end; an existing key keeps its place. */
  lemma {:induction false} PutKeys<K, V>(d: Dict<K, V>, k: K, v: V)
    ensures Keys(Put(d, k, v)) == if k in Keys(d) then Keys(d) else Keys(d) + [k]
    decreases |d|
  {
    if d != [] && d[0].0 != k {
      PutKeys(d[1..], k, v);
      assert Keys(d) == [d[0].0] + Keys(d[1..]);
      assert Keys(Put(d, k, v)) == [d[0].0] + Keys(Put(d[1..], k, v));
    } else if d != [] {
      assert Keys(Put(d, k, v)) == Keys(d);
    }
  }

  /** After `d[k] = v`, `d[k]` is `v` and every other key reads as before. */
  lemma {:induction false} PutGet<K, V>(d: Dict<K, V>, k: K, v: V, k': K)
    ensures Get(Put(d, k, v), k') == if k' == k then Some(v) else Get(d, k')
    decreases |d|
  {
    if d != [] && d[0].0 != k {
      PutGet(d[1..], k, v, k');
      assert Put(d, k, v)[1..] == Put(d[1..], k, v);
    } else if d != [] {
      assert Put(d, k, v)[1..] == d[1..];
    }
  }

  /** Assignment never creates a duplicate key. */
  lemma {:induction false} PutDistinct<K, V>(d: Dict<K, V>, k: K, v: V)
    requires DistinctKeys(d)
    ensures DistinctKeys(Put(d, k, v))
  {
    PutKeys(d, k, v);
    var r := Put(d, k, v);
    var ks := Keys(r);
    forall i, j | 0 <= i < j < |r| ensures r[i].0 != r[j].0 {
      assert ks[i] == r[i].0 && ks[j] == r[j].0;
      if k !in Keys(d) && j == |d| {
        assert ks[i] == Keys(d)[i];
      } else {
        assert ks[i] == Keys(d)[i] && ks[j] == Keys(d)[j];
      }
    }
  }

  /** Assigning fresh, distinct keys in turn appends the entries in that order. */
  lemma {:induction false} PutAllFresh<K, V>(d: Dict<K, V>, entries: Dict<K, V>)
    requires DistinctKeys(d + entries)
    ensures PutAll(d, entries) == d + entries
    decreases |entries|
  {
    if entries != [] {
      var n := |entries| - 1;
      var init := entries[..n];
      assert (d + init) == (d + entries)[..|d| + n];
      assert DistinctKeys(d + init);
      PutAllFresh(d, init);
      var last := entries[n];
      assert last == (d + entries)[|d| + n];
      forall i | 0 <= i < |d + init| ensures (d + init)[i].0 != last.0 {
        assert (d + init)[i] == (d + entries)[i];
      }
      PutAbsent(d + init, last.0, last.1);
      assert d + init + [last] == d + entries;
    }
  }

  lemma {:induction false} PutAbsent<K, V>(d: Dict<K, V>, k: K, v: V)
    requires forall i :: 0 <= i < |d| ==> d[i].0 != k
    ensures Put(d, k, v) == d + [(k, v)]
    decreases |d|
  {
    if d != [] {
      PutAbsent(d[1..], k, v);
    }
  }

  /** Assigning one more entry after a batch is one more `d[k] = v`. */
  lemma PutAllSnoc<K, V>(d: Dict<K, V>, entries: Dict<K, V>, e: (K, V))
    ensures PutAll(d, entries + [e]) == Put(PutAll(d, entries), e.0, e.1)
  {
    assert (entries + [e])[..|entries|] == entries;
  }
}
