/**
 * Python dictionaries with string keys, keeping insertion order (the order `items()`,
 * `keys()` and `values()` visit them).  A dictionary is an association list whose keys
 * are pairwise distinct.
 */
module Dicts {
  import opened Wrappers

  ghost predicate UniqueKeys<V>(d: seq<(string, V)>) {
    forall i, j :: 0 <= i < j < |d| ==> d[i].0 != d[j].0
  }

  type Dict<V> = d: seq<(string, V)> | UniqueKeys(d) witness []

  /** The keys in insertion order. */
  function Keys<V>(d: seq<(string, V)>): (ks: seq<string>)
    ensures |ks| == |d|
    ensures forall i :: 0 <= i < |d| ==> ks[i] == d[i].0
  {
    if d == [] then [] else [d[0].0] + Keys(d[1..])
  }

  /** The values in insertion order. */
  function Values<V>(d: seq<(string, V)>): (vs: seq<V>)
    ensures |vs| == |d|
    ensures forall i :: 0 <= i < |d| ==> vs[i] == d[i].1
  {
    if d == [] then [] else [d[0].1] + Values(d[1..])
  }

  /** The value stored under `k`, if any. */
  function Find<V>(d: seq<(string, V)>, k: string): Option<V> {
    if d == [] then None else if d[0].0 == k then Some(d[0].1) else Find(d[1..], k)
  }

  /** `k in d`. */
  predicate HasKey<V>(d: seq<(string, V)>, k: string) {
    Find(d, k).Some?
  }

  /** `d.get(k, default)`. */
  function Get<V>(d: seq<(string, V)>, k: string, default: V): V {
    Find(d, k).GetOr(default)
  }

  /** A key is present exactly when it is one of the keys. */
  lemma {:induction false} HasKeyIsKey<V>(d: seq<(string, V)>, k: string)
    ensures HasKey(d, k) <==> k in Keys(d)
  {
    if d != [] && d[0].0 != k {
      HasKeyIsKey(d[1..], k);
      assert Keys(d) == [d[0].0] + Keys(d[1..]);
    }
  }

  /** A lookup that succeeds finds an entry of the list. */
  lemma {:induction false} FindIndex<V>(d: seq<(string, V)>, k: string) returns (i: nat)
    requires HasKey(d, k)
    ensures i < |d| && d[i] == (k, Find(d, k).value)
  {
    if d[0].0 == k {
      i := 0;
    } else {
      i := FindIndex(d[1..], k);
      i := i + 1;
    }
  }

  /** In a dictionary the entry at position i is the one every lookup of its key finds. */
  lemma {:induction false} FindAt<V>(d: seq<(string, V)>, i: nat)
    requires UniqueKeys(d) && i < |d|
    ensures Find(d, d[i].0) == Some(d[i].1)
  {
    if i > 0 {
      assert d[0].0 != d[i].0;
      FindAt(d[1..], i - 1);
    }
  }

  /** `d[k] = v` on the association list: replaces the value in place, or appends. */
  function Store<V>(d: seq<(string, V)>, k: string, v: V): (r: seq<(string, V)>)
    ensures |r| == if HasKey(d, k) then |d| else |d| + 1
    ensures HasKey(d, k) ==> Keys(r) == Keys(d)
    ensures !HasKey(d, k) ==> r == d + [(k, v)]
    ensures Find(r, k) == Some(v)
    ensures forall k' :: k' != k ==> Find(r, k') == Find(d, k')
  {
    if d == [] then [(k, v)]
    else if d[0].0 == k then [(k, v)] + d[1..]
    else
      var r := [d[0]] + Store(d[1..], k, v);
      assert r[1..] == Store(d[1..], k, v);
      assert HasKey(d, k) ==> Keys(r) == [d[0].0] + Keys(Store(d[1..], k, v));
      r
  }

  /** Storing keeps the keys distinct. */
  lemma {:induction false} StoreUnique<V>(d: seq<(string, V)>, k: string, v: V)
    requires UniqueKeys(d)
    ensures UniqueKeys(Store(d, k, v))
  {
    var r := Store(d, k, v);
    if HasKey(d, k) {
      assert forall i :: 0 <= i < |r| ==> r[i].0 == Keys(r)[i] == Keys(d)[i];
    } else {
      HasKeyIsKey(d, k);
    }
  }

  /** `d[k] = v`: replaces the value in place when `k` is present, appends otherwise. */
  function Put<V>(d: Dict<V>, k: string, v: V): (r: Dict<V>)
    ensures |r| == if HasKey(d, k) then |d| else |d| + 1
    ensures HasKey(d, k) ==> Keys(r) == Keys(d)
    ensures !HasKey(d, k) ==> r == d + [(k, v)]
    ensures Find(r, k) == Some(v)
    ensures forall k' :: k' != k ==> Find(r, k') == Find(d, k')
  {
    StoreUnique(d, k, v);
    Store(d, k, v)
  }
}
