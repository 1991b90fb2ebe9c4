/** Sequence operations that the data-frame code relies on: boolean-mask
    selection (which keeps order), distinctness and `unique()` in order of
    first appearance. */
module Seqs {

  /** The elements of `s` that satisfy `p`, in their original order
      (a boolean mask applied to a table). */
  function Filter<T>(s: seq<T>, p: T -> bool): (r: seq<T>)
    ensures |r| <= |s|
    ensures forall i :: 0 <= i < |r| ==> p(r[i])
    ensures forall x :: x in r ==> x in s
  {
    if s == [] then []
    else Filter(s[..|s| - 1], p) + (if p(s[|s| - 1]) then [s[|s| - 1]] else [])
  }

  /** `t` can be obtained from `s` by deleting elements: order is kept. */
  ghost predicate IsSubsequence<T>(t: seq<T>, s: seq<T>)
    decreases |s|
  {
    if t == [] then true
    else if s == [] then false
    else (t[|t| - 1] == s[|s| - 1] && IsSubsequence(t[..|t| - 1], s[..|s| - 1]))
         || IsSubsequence(t, s[..|s| - 1])
  }

  /** No element occurs twice. */
  predicate Distinct<T(==)>(s: seq<T>) {
    forall i, j :: 0 <= i < j < |s| ==> s[i] != s[j]
  }

  /** The distinct elements of `s` in order of first appearance. */
  function Unique<T(==)>(s: seq<T>): (r: seq<T>)
    ensures Distinct(r)
    ensures forall i :: 0 <= i < |r| ==> r[i] in s
    ensures forall i :: 0 <= i < |s| ==> s[i] in r
    ensures |r| <= |s|
  {
    if s == [] then []
    else
      var u := Unique(s[..|s| - 1]);
      if s[|s| - 1] in u then u else u + [s[|s| - 1]]
  }

  /** Selecting over a sequence extended by one element. */
  lemma FilterSnoc<T>(s: seq<T>, x: T, p: T -> bool)
    ensures Filter(s + [x], p) == Filter(s, p) + (if p(x) then [x] else [])
  {
  }

  /** Selecting from sequences of one, two and three elements. */
  lemma FilterShort<T>(a: T, b: T, c: T, p: T -> bool)
    ensures Filter([a], p) == (if p(a) then [a] else [])
    ensures Filter([a, b], p) == Filter([a], p) + (if p(b) then [b] else [])
    ensures Filter([a, b, c], p) == Filter([a, b], p) + (if p(c) then [c] else [])
  {
    FilterSnoc([], a, p);
    FilterSnoc([a], b, p);
    FilterSnoc([a, b], c, p);
    assert [a] == [] + [a] && [a, b] == [a] + [b] && [a, b, c] == [a, b] + [c];
  }

  /** Filtering is the identity on order: the result is a subsequence. */
  lemma {:induction false} FilterIsSubsequence<T>(s: seq<T>, p: T -> bool)
    ensures IsSubsequence(Filter(s, p), s)
  {
    if s != [] {
      var s' := s[..|s| - 1];
      FilterIsSubsequence(s', p);
      var f := Filter(s, p);
      if p(s[|s| - 1]) {
        assert f[..|f| - 1] == Filter(s', p);
      } else {
        assert f == Filter(s', p);
      }
    }
  }

  /** Filtering keeps every occurrence of a selected element and drops every
      occurrence of the others. */
  lemma {:induction false} FilterCount<T>(s: seq<T>, p: T -> bool, x: T)
    ensures multiset(Filter(s, p))[x] == if p(x) then multiset(s)[x] else 0
  {
    if s != [] {
      var s', y := s[..|s| - 1], s[|s| - 1];
      FilterCount(s', p, x);
      assert s == s' + [y];
      assert multiset(s) == multiset(s') + multiset{y};
      if p(y) {
        assert Filter(s, p) == Filter(s', p) + [y];
      } else {
        assert Filter(s, p) == Filter(s', p);
      }
    }
  }

  /** Two complementary masks split a sequence into two parts that together
      hold every element exactly as often as the sequence does. */
  lemma {:induction false} FilterComplement<T>(s: seq<T>, p: T -> bool, q: T -> bool)
    requires forall x :: q(x) == !p(x)
    ensures multiset(Filter(s, p)) + multiset(Filter(s, q)) == multiset(s)
  {
    if s != [] {
      var s', x := s[..|s| - 1], s[|s| - 1];
      FilterComplement(s', p, q);
      assert s == s' + [x];
      assert multiset(s) == multiset(s') + multiset{x};
      assert q(x) == !p(x);
      if p(x) {
        assert Filter(s, q) == Filter(s', q);
        assert Filter(s, p) == Filter(s', p) + [x];
      } else {
        assert Filter(s, p) == Filter(s', p);
        assert Filter(s, q) == Filter(s', q) + [x];
      }
    }
  }

  /** A mask keeps the whole sequence exactly when every element passes it. */
  lemma {:induction false} FilterKeepsAll<T>(s: seq<T>, p: T -> bool)
    ensures |Filter(s, p)| == |s| <==> forall i :: 0 <= i < |s| ==> p(s[i])
  {
    if s != [] {
      var s' := s[..|s| - 1];
      FilterKeepsAll(s', p);
      assert forall i :: 0 <= i < |s'| ==> s'[i] == s[i];
    }
  }
}
