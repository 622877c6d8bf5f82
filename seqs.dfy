/** Sequences: `Array.prototype.filter` as a function, and the subsequence relation
    that says a result keeps the order of its source and adds or duplicates nothing. */
module Seqs {

  /** `r` is obtained from `s` by deleting elements; the rest keep their relative order. */
  predicate Subsequence<T(==)>(r: seq<T>, s: seq<T>)
    decreases |s|
  {
    r == [] || (s != [] && ((r[0] == s[0] && Subsequence(r[1..], s[1..])) || Subsequence(r, s[1..])))
  }

  /** A subsequence is never longer, and holds no element more often, than its source. */
  lemma {:induction false} SubsequenceBounds<T>(r: seq<T>, s: seq<T>)
    requires Subsequence(r, s)
    ensures |r| <= |s|
    ensures multiset(r) <= multiset(s)
    decreases |s|
  {
    if r != [] {
      if r[0] == s[0] && Subsequence(r[1..], s[1..]) {
        SubsequenceBounds(r[1..], s[1..]);
        assert r == [r[0]] + r[1..];
        assert s == [s[0]] + s[1..];
      } else {
        SubsequenceBounds(r, s[1..]);
        assert s == [s[0]] + s[1..];
      }
    }
  }

  /** The elements of `s` that satisfy `p`, in their order in `s` (a stable filter). */
  function Filter<T>(s: seq<T>, p: T -> bool): (r: seq<T>)
    ensures |r| <= |s|
    ensures forall i :: 0 <= i < |r| ==> p(r[i])
  {
    if s == [] then []
    else if p(s[0]) then [s[0]] + Filter(s[1..], p)
    else Filter(s[1..], p)
  }

  /** Filtering keeps order: the result is a subsequence of its input. */
  lemma {:induction false} FilterIsSubsequence<T>(s: seq<T>, p: T -> bool)
    ensures Subsequence(Filter(s, p), s)
  {
    if s != [] {
      FilterIsSubsequence(s[1..], p);
      if p(s[0]) {
        assert ([s[0]] + Filter(s[1..], p))[1..] == Filter(s[1..], p);
      }
    }
  }

  /** Every occurrence of an element that satisfies `p` is kept; every other one is dropped. */
  lemma {:induction false} FilterCount<T>(s: seq<T>, p: T -> bool, x: T)
    ensures multiset(Filter(s, p))[x] == if p(x) then multiset(s)[x] else 0
  {
    if s != [] {
      FilterCount(s[1..], p, x);
      assert s == [s[0]] + s[1..];
    }
  }

  /** Membership in the result is membership in the input together with `p`. */
  lemma FilterMembership<T>(s: seq<T>, p: T -> bool)
    ensures forall x :: x in Filter(s, p) <==> x in s && p(x)
  {
    forall x
      ensures x in Filter(s, p) <==> x in s && p(x)
    {
      FilterCount(s, p, x);
    }
  }

  /** A predicate that every element satisfies filters nothing out. */
  lemma {:induction false} FilterKeepsAll<T>(s: seq<T>, p: T -> bool)
    requires forall i :: 0 <= i < |s| ==> p(s[i])
    ensures Filter(s, p) == s
  {
    if s != [] {
      FilterKeepsAll(s[1..], p);
      assert s == [s[0]] + s[1..];
    }
  }

  /** Two predicates that agree on the elements of `s` filter it alike. */
  lemma {:induction false} FilterExtensional<T>(s: seq<T>, p: T -> bool, q: T -> bool)
    requires forall i :: 0 <= i < |s| ==> p(s[i]) == q(s[i])
    ensures Filter(s, p) == Filter(s, q)
  {
    if s != [] {
      assert forall i :: 0 <= i < |s[1..]| ==> s[1..][i] == s[i + 1];
      FilterExtensional(s[1..], p, q);
    }
  }

  /** Filtering twice is filtering once by the conjunction of the two predicates. */
  lemma {:induction false} FilterFuse<T>(s: seq<T>, p: T -> bool, q: T -> bool, both: T -> bool)
    requires forall i :: 0 <= i < |s| ==> both(s[i]) == (p(s[i]) && q(s[i]))
    ensures Filter(Filter(s, p), q) == Filter(s, both)
  {
    if s != [] {
      assert forall i :: 0 <= i < |s[1..]| ==> s[1..][i] == s[i + 1];
      FilterFuse(s[1..], p, q, both);
      if p(s[0]) {
        assert Filter(s, p)[0] == s[0] && Filter(s, p)[1..] == Filter(s[1..], p);
      }
    }
  }

  /** A stronger predicate keeps a subsequence of what a weaker one keeps. */
  lemma {:induction false} FilterNarrows<T>(s: seq<T>, weak: T -> bool, strong: T -> bool)
    requires forall i :: 0 <= i < |s| ==> strong(s[i]) ==> weak(s[i])
    ensures Subsequence(Filter(s, strong), Filter(s, weak))
  {
    if s != [] {
      assert forall i :: 0 <= i < |s[1..]| ==> s[1..][i] == s[i + 1];
      FilterNarrows(s[1..], weak, strong);
      var a, b := Filter(s[1..], strong), Filter(s[1..], weak);
      if strong(s[0]) {
        assert ([s[0]] + a)[1..] == a && ([s[0]] + b)[1..] == b;
      } else if weak(s[0]) {
        assert ([s[0]] + b)[1..] == b;
      }
    }
  }
}
