/**
 * JavaScript objects with string keys, kept as the ordered list of their entries: for keys that are
 * not array indices, `Object.entries` and `Object.values` enumerate in insertion order, a new key is
 * appended and an existing key keeps its place when its value is reassigned. Keys that read as array
 * indices ("42"), which JavaScript enumerates first in ascending numeric order, are not modelled.
 */
module Records {
  import opened Wrappers

  type Record<V> = seq<(string, V)>

  predicate UniqueKeys<V>(r: Record<V>) {
    forall i, j :: 0 <= i < j < |r| ==> r[i].0 != r[j].0
  }

  predicate HasKey<V>(r: Record<V>, k: string) {
    exists i | 0 <= i < |r| :: r[i].0 == k
  }

  /** Position of the first entry with key `k`, or -1. */
  function IndexOf<V>(r: Record<V>, k: string): (i: int)
    ensures -1 <= i < |r|
    ensures 0 <= i ==> r[i].0 == k && forall j :: 0 <= j < i ==> r[j].0 != k
    ensures i == -1 <==> !HasKey(r, k)
  {
    if r == [] then -1
    else if r[0].0 == k then 0
    else var j := IndexOf(r[1..], k); if j == -1 then -1 else j + 1
  }

  /** `obj[k]`, with `None` for `undefined` */
  function Get<V>(r: Record<V>, k: string): Option<V> {
    var i := IndexOf(r, k);
    if i < 0 then None else Some(r[i].1)
  }

  lemma GetAt<V>(r: Record<V>, i: int)
    requires UniqueKeys(r) && 0 <= i < |r|
    ensures Get(r, r[i].0) == Some(r[i].1)
  {
  }

  /** `obj[k] = (obj[k] || 0) + 1` on a record of counts. */
  function Increment(r: Record<nat>, k: string): (r': Record<nat>)
    ensures Get(r', k) == Some(Get(r, k).GetOr(0) + 1)
    ensures forall k' :: k' != k ==> Get(r', k') == Get(r, k')
    ensures UniqueKeys(r) ==> UniqueKeys(r')
    ensures HasKey(r, k) ==> |r'| == |r| && forall i :: 0 <= i < |r| ==> r'[i].0 == r[i].0
    ensures !HasKey(r, k) ==> r' == r + [(k, 1)]
  {
    var i := IndexOf(r, k);
    if i >= 0 then
      var r' := r[i := (k, r[i].1 + 1)];
      assert forall k' :: k' != k ==> IndexOf(r', k') == IndexOf(r, k') by {
        forall k' | k' != k ensures IndexOf(r', k') == IndexOf(r, k') {
          IndexOfSameKeys(r, r', k');
        }
      }
      assert IndexOf(r', k) == i by { IndexOfSameKeys(r, r', k); }
      r'
    else
      var r' := r + [(k, 1)];
      assert forall k' :: k' != k ==> IndexOf(r', k') == IndexOf(r, k') by {
        forall k' | k' != k ensures IndexOf(r', k') == IndexOf(r, k') {
          IndexOfAppend(r, (k, 1), k');
        }
      }
      assert IndexOf(r', k) == |r| by { IndexOfAppend(r, (k, 1), k); }
      r'
  }

  lemma {:induction false} IndexOfSameKeys<V>(r: Record<V>, r': Record<V>, k: string)
    requires |r| == |r'| && forall i :: 0 <= i < |r| ==> r[i].0 == r'[i].0
    ensures IndexOf(r, k) == IndexOf(r', k)
  {
    if r != [] && r[0].0 != k {
      IndexOfSameKeys(r[1..], r'[1..], k);
    }
  }

  lemma {:induction false} IndexOfAppend<V>(r: Record<V>, e: (string, V), k: string)
    ensures IndexOf(r + [e], k) == if HasKey(r, k) then IndexOf(r, k) else if e.0 == k then |r| else -1
  {
    if r != [] {
      assert (r + [e])[1..] == r[1..] + [e];
      IndexOfAppend(r[1..], e, k);
      if r[0].0 != k && HasKey(r, k) {
        var i :| 0 <= i < |r| && r[i].0 == k;
        assert r[1..][i - 1].0 == k;
      }
    }
  }

  /** `obj[k] = v`: an existing key keeps its place, a new key is appended. */
  function Put<V>(r: Record<V>, k: string, v: V): (r': Record<V>)
    ensures Get(r', k) == Some(v)
    ensures forall k' :: k' != k ==> Get(r', k') == Get(r, k')
    ensures UniqueKeys(r) ==> UniqueKeys(r')
  {
    var i := IndexOf(r, k);
    if i >= 0 then
      var r' := r[i := (k, v)];
      assert forall k' :: IndexOf(r', k') == IndexOf(r, k') by {
        forall k' ensures IndexOf(r', k') == IndexOf(r, k') {
          IndexOfSameKeys(r, r', k');
        }
      }
      r'
    else
      var r' := r + [(k, v)];
      assert forall k' :: k' != k ==> IndexOf(r', k') == IndexOf(r, k') by {
        forall k' | k' != k ensures IndexOf(r', k') == IndexOf(r, k') {
          IndexOfAppend(r, (k, v), k');
        }
      }
      assert IndexOf(r', k) == |r| by { IndexOfAppend(r, (k, v), k); }
      r'
  }

  /** Every value of a record of counts is at least 1. */
  predicate Positive(r: Record<nat>) {
    forall i :: 0 <= i < |r| ==> r[i].1 >= 1
  }

  /** `Object.values(r).reduce((a, b) => a + b, 0)` */
  function Sum(r: Record<nat>): nat {
    if r == [] then 0 else Sum(r[..|r| - 1]) + r[|r| - 1].1
  }

  lemma {:induction false} SumUpdate(r: Record<nat>, i: int, e: (string, nat))
    requires 0 <= i < |r|
    ensures Sum(r[i := e]) == Sum(r) - r[i].1 + e.1
  {
    var n := |r|;
    if i < n - 1 {
      assert r[i := e][..n - 1] == r[..n - 1][i := e];
      SumUpdate(r[..n - 1], i, e);
    } else {
      assert r[i := e][..n - 1] == r[..n - 1];
    }
  }

  lemma {:induction false} SumIncrement(r: Record<nat>, k: string)
    ensures Sum(Increment(r, k)) == Sum(r) + 1
    ensures Positive(r) ==> Positive(Increment(r, k))
  {
    var i := IndexOf(r, k);
    if i >= 0 {
      assert Increment(r, k) == r[i := (k, r[i].1 + 1)];
      SumUpdate(r, i, (k, r[i].1 + 1));
    } else {
      var r' := r + [(k, 1)];
      assert Increment(r, k) == r';
      assert r'[..|r|] == r;
      assert Sum(r') == Sum(r) + 1;
    }
  }
}
