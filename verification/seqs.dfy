/** Order-preserving selection from a sequence (`Array.prototype.filter`) and the subsequence relation it yields. */
module Seqs {

  /** `s.filter(p)`: the elements of `s` satisfying `p`, in their original order. */
  function Filter<T>(s: seq<T>, p: T -> bool): (r: seq<T>)
    ensures |r| <= |s|
    ensures forall i :: 0 <= i < |r| ==> p(r[i])
  {
    if s == [] then [] else Filter(s[..|s| - 1], p) + (if p(s[|s| - 1]) then [s[|s| - 1]] else [])
  }

  /** `idx` is a strictly increasing list of positions of `b` that spells out `a`. */
  ghost predicate EmbeddedAt<T>(a: seq<T>, b: seq<T>, idx: seq<nat>) {
    && |idx| == |a|
    && (forall i, j :: 0 <= i < j < |idx| ==> idx[i] < idx[j])
    && (forall i :: 0 <= i < |idx| ==> idx[i] < |b| && b[idx[i]] == a[i])
  }

  /** `a` is obtained from `b` by deleting elements, keeping the order of the rest. */
  ghost predicate IsSubsequence<T>(a: seq<T>, b: seq<T>) {
    exists idx :: EmbeddedAt(a, b, idx)
  }

  /** The positions `Filter` keeps. */
  ghost function KeptPositions<T>(s: seq<T>, p: T -> bool): (idx: seq<nat>)
    ensures EmbeddedAt(Filter(s, p), s, idx)
  {
    if s == [] then []
    else
      var idx := KeptPositions(s[..|s| - 1], p);
      assert forall i :: 0 <= i < |idx| ==> s[idx[i]] == s[..|s| - 1][idx[i]];
      if p(s[|s| - 1]) then idx + [|s| - 1] else idx
  }

  lemma FilterIsSubsequence<T>(s: seq<T>, p: T -> bool)
    ensures IsSubsequence(Filter(s, p), s)
  {
    var idx := KeptPositions(s, p);
  }

  /** An element survives `Filter` iff it is in the input and satisfies the predicate. */
  lemma {:induction false} FilterMembership<T>(s: seq<T>, p: T -> bool, x: T)
    ensures x in Filter(s, p) <==> x in s && p(x)
  {
    if s != [] {
      FilterMembership(s[..|s| - 1], p, x);
      assert s == s[..|s| - 1] + [s[|s| - 1]];
    }
  }

  lemma FilterMembershipAll<T>(s: seq<T>, p: T -> bool)
    ensures forall x :: x in Filter(s, p) <==> x in s && p(x)
  {
    forall x {
      FilterMembership(s, p, x);
    }
  }

  /** Filtering by `p` and then by `q` is filtering once by their conjunction `pq`. */
  lemma {:induction false} FilterFilter<T>(s: seq<T>, p: T -> bool, q: T -> bool, pq: T -> bool)
    requires forall x :: pq(x) == (p(x) && q(x))
    ensures Filter(Filter(s, p), q) == Filter(s, pq)
  {
    if s != [] {
      var init := s[..|s| - 1];
      FilterFilter(init, p, q, pq);
      var last := s[|s| - 1];
      if p(last) {
        var f := Filter(init, p) + [last];
        assert Filter(s, p) == f;
        assert f[..|f| - 1] == Filter(init, p);
        assert Filter(f, q) == Filter(Filter(init, p), q) + (if q(last) then [last] else []);
      } else {
        assert Filter(s, p) == Filter(init, p);
      }
    }
  }

  /** Filtering a prefix extended by one element. */
  lemma FilterSnoc<T>(s: seq<T>, k: nat, p: T -> bool)
    requires k < |s|
    ensures Filter(s[..k + 1], p) == Filter(s[..k], p) + (if p(s[k]) then [s[k]] else [])
  {
    assert s[..k + 1][..k] == s[..k];
  }
}
