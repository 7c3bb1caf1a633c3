/**
  An insertion-ordered dictionary, the way a Python dict behaves: a sequence
  of (key, value) entries in which assigning an existing key replaces its
  value in place and assigning a new key appends it.
 */
module Dicts {
  import opened Wrappers
  import opened Seqs

  type Dict<K, V> = seq<(K, V)>

  /** The keys, in insertion order. */
  function Keys<K, V>(d: Dict<K, V>): (ks: seq<K>)
    ensures |ks| == |d|
    ensures forall i {:trigger ks[i]} :: 0 <= i < |d| ==> ks[i] == d[i].0
  {
    if d == [] then [] else [d[0].0] + Keys(d[1..])
  }

  /** The values, in insertion order (`d.values()`). */
  function Values<K, V>(d: Dict<K, V>): (vs: seq<V>)
    ensures |vs| == |d|
    ensures forall i {:trigger vs[i]} :: 0 <= i < |d| ==> vs[i] == d[i].1
  {
    if d == [] then [] else [d[0].1] + Values(d[1..])
  }

  /** No key occurs twice. */
  ghost predicate DistinctKeys<K, V>(d: Dict<K, V>) {
    forall i, j :: 0 <= i < j < |d| ==> d[i].0 != d[j].0
  }

  /** `d.get(k)`: the value stored under `k`, if any. */
  function Get<K(==), V>(d: Dict<K, V>, k: K): (r: Option<V>)
    ensures r.None? <==> k !in Keys(d)
  {
    if d == [] then None
    else if d[0].0 == k then Some(d[0].1)
    else Get(d[1..], k)
  }

  /** `d[k] = v`: an existing key keeps its position, a new key goes last. */
  function Put<K(==,!new), V>(d: Dict<K, V>, k: K, v: V): (r: Dict<K, V>)
    ensures Keys(r) == if k in Keys(d) then Keys(d) else Keys(d) + [k]
    ensures Get(r, k) == Some(v)
    ensures forall k' :: k' != k ==> Get(r, k') == Get(d, k')
  {
    if d == [] then [(k, v)]
    else if d[0].0 == k then
      assert Keys([(k, v)] + d[1..]) == [k] + Keys(d[1..]);
      [(k, v)] + d[1..]
    else
      var rest := Put(d[1..], k, v);
      var r := [d[0]] + rest;
      assert r[1..] == rest;
      assert Keys(r) == [d[0].0] + Keys(rest);
      assert Keys(d) == [d[0].0] + Keys(d[1..]);
      assert k in Keys(d) <==> k in Keys(d[1..]);
      AppendAssociative([d[0].0], Keys(d[1..]), [k]);
      r
  }

  /** A key `d.get` finds is stored together with the value it returns. */
  lemma {:induction false} GetEntry<K, V>(d: Dict<K, V>, k: K)
    requires Get(d, k).Some?
    ensures (k, Get(d, k).value) in d
  {
    if d[0].0 != k {
      GetEntry(d[1..], k);
      assert forall p :: p in d[1..] ==> p in d;
    }
  }

  /** The keys of `d + [e]` are those of `d` followed by `e`'s key. */
  lemma KeysSnoc<K, V>(d: Dict<K, V>, e: (K, V))
    ensures Keys(d + [e]) == Keys(d) + [e.0]
  {
    var all, keys := Keys(d + [e]), Keys(d);
    forall i | 0 <= i < |all| ensures all[i] == (keys + [e.0])[i] {
      if i < |d| { assert (d + [e])[i] == d[i]; }
    }
  }

  /** Assigning a key twice leaves the second value, at the first assignment's position. */
  lemma {:induction false} PutPut<K(!new), V>(d: Dict<K, V>, k: K, v: V, w: V)
    ensures Put(Put(d, k, v), k, w) == Put(d, k, w)
  {
    if d != [] && d[0].0 != k {
      PutPut(d[1..], k, v, w);
      assert Put(d, k, v)[1..] == Put(d[1..], k, v);
    }
  }

  /** Dropping the last entry of a dictionary with distinct keys. */
  lemma LastEntry<K, V>(d: Dict<K, V>)
    requires DistinctKeys(d) && d != []
    ensures DistinctKeys(d[..|d| - 1])
    ensures d[|d| - 1].0 !in Keys(d[..|d| - 1])
    ensures Keys(d) == Keys(d[..|d| - 1]) + [d[|d| - 1].0]
  {
    var n := |d| - 1;
    var front := d[..n];
    assert d == front + [d[n]];
    KeysSnoc(front, d[n]);
    var keys := Keys(front);
    forall i | 0 <= i < n ensures keys[i] != d[n].0 {
      assert keys[i] == front[i].0 && front[i] == d[i];
    }
  }

  /**
    The dictionary a `for k, v in d.items(): out[k] = f(v)` loop builds,
    entry by entry, from an empty one.
   */
  function MapValues<K(==,!new), A, B>(d: Dict<K, A>, f: A -> B): Dict<K, B> {
    if d == [] then []
    else
      var n := |d| - 1;
      Put(MapValues(d[..n], f), d[n].0, f(d[n].1))
  }

  /** One more entry of `d` mapped: the loop's step. */
  lemma MapValuesSnoc<K(!new), A, B>(d: Dict<K, A>, f: A -> B, n: nat)
    requires n < |d|
    ensures MapValues(d[..n + 1], f) == Put(MapValues(d[..n], f), d[n].0, f(d[n].1))
  {
    assert d[..n + 1][..n] == d[..n];
  }

  lemma {:induction false} MapValuesKeys<K(!new), A, B>(d: Dict<K, A>, f: A -> B)
    requires DistinctKeys(d)
    ensures Keys(MapValues(d, f)) == Keys(d)
  {
    if d != [] {
      LastEntry(d);
      MapValuesKeys(d[..|d| - 1], f);
    }
  }

  lemma {:induction false} MapValuesGet<K(!new), A, B>(d: Dict<K, A>, f: A -> B, k: nat)
    requires DistinctKeys(d)
    requires k < |d|
    ensures Get(MapValues(d, f), d[k].0) == Some(f(d[k].1))
  {
    var n := |d| - 1;
    if k < n {
      LastEntry(d);
      MapValuesGet(d[..n], f, k);
    }
  }
}
