/**
 * Python's insertion-ordered `dict`, as an association list. A key is stored
 * once; assigning to a present key overwrites its value in place, assigning to
 * an absent key appends it at the end.
 */
module Dicts {
  import opened Wrappers

  type Dict<K, V> = seq<(K, V)>

  /** The keys in insertion order (`list(d)`). */
  function Keys<K, V>(d: Dict<K, V>): (ks: seq<K>)
    ensures |ks| == |d|
    ensures forall i :: 0 <= i < |d| ==> ks[i] == d[i].0
  {
    seq(|d|, i requires 0 <= i < |d| => d[i].0)
  }

  /** The values in insertion order (`list(d.values())`). */
  function Values<K, V>(d: Dict<K, V>): (vs: seq<V>)
    ensures |vs| == |d|
    ensures forall i :: 0 <= i < |d| ==> vs[i] == d[i].1
  {
    seq(|d|, i requires 0 <= i < |d| => d[i].1)
  }

  /** `k in d` */
  predicate HasKey<K(==), V>(d: Dict<K, V>, k: K)
  {
    k in Keys(d)
  }

  /** `d.get(k)`: the value stored under `k` (the first entry for `k`). */
  function Get<K(==), V>(d: Dict<K, V>, k: K): (r: Option<V>)
    ensures r.Some? <==> HasKey(d, k)
  {
    if d == [] then None
    else if d[0].0 == k then Some(d[0].1)
    else Get(d[1..], k)
  }

  /** No element occurs twice. */
  predicate Distinct<T(==)>(s: seq<T>)
  {
    forall i, j :: 0 <= i < j < |s| ==> s[i] != s[j]
  }

  /** No key is stored twice; every dictionary built by `Put` from `[]` has this shape. */
  predicate DistinctKeys<K(==), V>(d: Dict<K, V>)
  {
    Distinct(Keys(d))
  }

  lemma DistinctAppend<T>(s: seq<T>, x: T)
    requires Distinct(s) && x !in s
    ensures Distinct(s + [x])
  {
  }

  /** `d[k] = v` */
  function Put<K(==, !new), V>(d: Dict<K, V>, k: K, v: V): (r: Dict<K, V>)
    ensures Keys(r) == if HasKey(d, k) then Keys(d) else Keys(d) + [k]
    ensures Get(r, k) == Some(v)
    ensures forall k' :: k' != k ==> Get(r, k') == Get(d, k')
    ensures DistinctKeys(d) ==> DistinctKeys(r)
  {
    var r := PutEntry(d, k, v);
    PutEntryKeys(d, k, v);
    PutEntryGet(d, k, v);
    if DistinctKeys(d) && !HasKey(d, k) then
      DistinctAppend(Keys(d), k);
      r
    else
      r
  }

  function PutEntry<K(==), V>(d: Dict<K, V>, k: K, v: V): (r: Dict<K, V>)
    ensures |r| >= |d|
  {
    if d == [] then [(k, v)]
    else if d[0].0 == k then [(k, v)] + d[1..]
    else [d[0]] + PutEntry(d[1..], k, v)
  }

  lemma PutEntryKeys<K, V>(d: Dict<K, V>, k: K, v: V)
    ensures Keys(PutEntry(d, k, v)) == if HasKey(d, k) then Keys(d) else Keys(d) + [k]
  {
    var r := PutEntry(d, k, v);
    if d == [] {
    } else if d[0].0 == k {
      assert Keys(r) == Keys(d);
    } else {
      PutEntryKeys(d[1..], k, v);
      assert Keys(d) == [d[0].0] + Keys(d[1..]);
      assert Keys(r) == [d[0].0] + Keys(PutEntry(d[1..], k, v));
    }
  }

  lemma PutEntryGet<K(!new), V>(d: Dict<K, V>, k: K, v: V)
    ensures Get(PutEntry(d, k, v), k) == Some(v)
    ensures forall k' :: k' != k ==> Get(PutEntry(d, k, v), k') == Get(d, k')
  {
    var r := PutEntry(d, k, v);
    if d != [] && d[0].0 != k {
      PutEntryGet(d[1..], k, v);
      assert r[1..] == PutEntry(d[1..], k, v);
    } else if d != [] {
      assert r[1..] == d[1..];
    }
  }

  /** Assigning to an absent key appends one entry. */
  lemma PutAppends<K(!new), V>(d: Dict<K, V>, k: K, v: V)
    requires !HasKey(d, k)
    ensures Put(d, k, v) == d + [(k, v)]
  {
    PutEntryAppends(d, k, v);
  }

  lemma {:induction false} PutEntryAppends<K, V>(d: Dict<K, V>, k: K, v: V)
    requires !HasKey(d, k)
    ensures PutEntry(d, k, v) == d + [(k, v)]
    decreases |d|
  {
    if d != [] {
      assert Keys(d) == [d[0].0] + Keys(d[1..]);
      PutEntryAppends(d[1..], k, v);
      assert d == [d[0]] + d[1..];
    }
  }

  /** The values stored under the keys of `d`, in the order of `d`, transformed by `f`. */
  function MapValues<K, V, W>(d: Dict<K, V>, f: V -> W): (r: Dict<K, W>)
    ensures Keys(r) == Keys(d)
    ensures forall i :: 0 <= i < |d| ==> r[i].1 == f(d[i].1)
  {
    seq(|d|, i requires 0 <= i < |d| => (d[i].0, f(d[i].1)))
  }

  /** The first entry for a key of a dictionary with distinct keys is its only entry. */
  lemma GetAt<K, V>(d: Dict<K, V>, i: nat)
    requires DistinctKeys(d) && i < |d|
    ensures Get(d, d[i].0) == Some(d[i].1)
  {
    if i > 0 {
      GetAt(d[1..], i - 1);
    }
  }

  /** Assigning the same value to the same key twice is the same as assigning it once. */
  lemma {:induction false} PutIdempotent<K(!new), V>(d: Dict<K, V>, k: K, v: V)
    ensures Put(Put(d, k, v), k, v) == Put(d, k, v)
  {
    PutEntryTwice(d, k, v);
  }

  lemma {:induction false} PutEntryTwice<K, V>(d: Dict<K, V>, k: K, v: V)
    ensures PutEntry(PutEntry(d, k, v), k, v) == PutEntry(d, k, v)
    decreases |d|
  {
    if d != [] && d[0].0 != k {
      PutEntryTwice(d[1..], k, v);
      var r := PutEntry(d, k, v);
      assert r[1..] == PutEntry(d[1..], k, v);
    }
  }
}
