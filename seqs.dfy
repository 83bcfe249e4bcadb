/** Sequence helpers standing for JavaScript's `Array.prototype.filter`. */
module Seqs {

  /** The elements of `s` that satisfy `keep`, in their original order. */
  function Filter<T>(s: seq<T>, keep: T -> bool): (r: seq<T>)
    ensures |r| <= |s|
    ensures forall x :: x in r ==> x in s && keep(x)
    ensures forall x :: x in s && keep(x) ==> x in r
    decreases |s|
  {
    if s == [] then []
    else
      var rest := Filter(s[1..], keep);
      assert forall x :: x in s ==> x == s[0] || x in s[1..];
      (if keep(s[0]) then [s[0]] else []) + rest
  }

  /** Two filters in a row keep exactly what one filter by the conjunction keeps. */
  lemma {:induction false} FilterConjunction<T>(s: seq<T>, p: T -> bool, q: T -> bool, pq: T -> bool)
    requires forall x :: pq(x) == (p(x) && q(x))
    ensures Filter(Filter(s, p), q) == Filter(s, pq)
    decreases |s|
  {
    if s != [] {
      FilterConjunction(s[1..], p, q, pq);
      if p(s[0]) {
        assert Filter(s, p) == [s[0]] + Filter(s[1..], p);
        assert Filter(s, p)[1..] == Filter(s[1..], p);
      } else {
        assert Filter(s, p) == Filter(s[1..], p);
      }
    }
  }

  /** Filtering a sequence all of whose elements are kept changes nothing. */
  lemma {:induction false} FilterKeepsAll<T>(s: seq<T>, keep: T -> bool)
    requires forall x :: x in s ==> keep(x)
    ensures Filter(s, keep) == s
    decreases |s|
  {
    if s != [] {
      assert forall x :: x in s[1..] ==> x in s;
      FilterKeepsAll(s[1..], keep);
      assert s == [s[0]] + s[1..];
    }
  }

  /** The indices, from `k` on, of the elements of `s` that satisfy `keep`,
      in increasing order. */
  function KeptIndices<T>(s: seq<T>, keep: T -> bool, k: nat): (r: seq<nat>)
    requires k <= |s|
    ensures forall j :: 0 <= j < |r| ==> k <= r[j] < |s| && keep(s[r[j]])
    ensures forall j1, j2 :: 0 <= j1 < j2 < |r| ==> r[j1] < r[j2]
    ensures forall i :: k <= i < |s| && keep(s[i]) ==> i in r
    decreases |s| - k
  {
    if k == |s| then []
    else if keep(s[k]) then [k] + KeptIndices(s, keep, k + 1)
    else KeptIndices(s, keep, k + 1)
  }

  /** The elements of `s` at the indices `idx`, in that order. */
  function At<T>(s: seq<T>, idx: seq<nat>): (r: seq<T>)
    requires forall j :: 0 <= j < |idx| ==> idx[j] < |s|
    ensures |r| == |idx|
    ensures forall j :: 0 <= j < |idx| ==> r[j] == s[idx[j]]
    decreases |idx|
  {
    if idx == [] then [] else [s[idx[0]]] + At(s, idx[1..])
  }

  /** Filtering keeps exactly the elements at the kept indices, in order. */
  lemma {:induction false} FilterIsAtKeptIndices<T>(s: seq<T>, keep: T -> bool, k: nat)
    requires k <= |s|
    ensures Filter(s[k..], keep) == At(s, KeptIndices(s, keep, k))
    decreases |s| - k
  {
    if k < |s| {
      FilterIsAtKeptIndices(s, keep, k + 1);
      var t := s[k..];
      assert t[0] == s[k] && t[1..] == s[k + 1..];
      var rest := KeptIndices(s, keep, k + 1);
      if keep(s[k]) {
        assert Filter(t, keep) == [s[k]] + Filter(s[k + 1..], keep);
        assert ([k] + rest)[1..] == rest;
      } else {
        assert Filter(t, keep) == Filter(s[k + 1..], keep);
      }
    }
  }
}
