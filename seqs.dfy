/** Sequence helpers: Swift's `compactMap` and `filter`, and what they keep. */
module Seqs {
  import opened Wrappers

  /** `a` can be obtained from `b` by deleting elements, keeping the order. */
  predicate IsSubsequence<T(==)>(a: seq<T>, b: seq<T>)
    decreases |b|
  {
    a == [] || (b != [] && ((a[0] == b[0] && IsSubsequence(a[1..], b[1..])) || IsSubsequence(a, b[1..])))
  }

  /** Every earlier element stands `before` every later one. */
  predicate Ordered<U>(s: seq<U>, before: (U, U) -> bool) {
    forall i, j :: 0 <= i < j < |s| ==> before(s[i], s[j])
  }

  /** Swift's `compactMap`: apply `f`, keep the `Some` results in order. */
  function FilterMap<T, U>(s: seq<T>, f: T -> Option<U>): (r: seq<U>)
    ensures |r| <= |s|
  {
    if s == [] then []
    else
      match f(s[0])
      case Some(u) => [u] + FilterMap(s[1..], f)
      case None => FilterMap(s[1..], f)
  }

  /** The results of `compactMap` are exactly the `Some` values of `f` on the input. */
  lemma {:induction false} FilterMapMembers<T, U>(s: seq<T>, f: T -> Option<U>, u: U)
    ensures u in FilterMap(s, f) <==> exists i :: 0 <= i < |s| && f(s[i]) == Some(u)
  {
    if s != [] {
      FilterMapMembers(s[1..], f, u);
      if exists i :: 0 <= i < |s| && f(s[i]) == Some(u) {
        var i :| 0 <= i < |s| && f(s[i]) == Some(u);
        if i > 0 {
          assert s[1..][i - 1] == s[i];
        }
      }
      if exists i :: 0 <= i < |s[1..]| && f(s[1..][i]) == Some(u) {
        var i :| 0 <= i < |s[1..]| && f(s[1..][i]) == Some(u);
        assert s[i + 1] == s[1..][i];
      }
    }
  }

  /** When `f` succeeds on every element, `compactMap` drops nothing and is
      a plain `map`: same length, same order. */
  lemma {:induction false} FilterMapKeepsAll<T, U>(s: seq<T>, f: T -> Option<U>)
    requires forall i :: 0 <= i < |s| ==> f(s[i]).Some?
    ensures |FilterMap(s, f)| == |s|
    ensures forall i :: 0 <= i < |s| ==> FilterMap(s, f)[i] == f(s[i]).value
  {
    if s != [] {
      assert f(s[0]).Some?;
      assert forall i :: 0 <= i < |s[1..]| ==> s[1..][i] == s[i + 1];
      FilterMapKeepsAll(s[1..], f);
    }
  }

  /** `compactMap` keeps the relative order of the values it keeps. */
  lemma {:induction false} FilterMapOrdered<T, U>(s: seq<T>, f: T -> Option<U>, before: (U, U) -> bool)
    requires forall i, j :: 0 <= i < j < |s| && f(s[i]).Some? && f(s[j]).Some? ==>
      before(f(s[i]).value, f(s[j]).value)
    ensures Ordered(FilterMap(s, f), before)
  {
    if s != [] {
      var tail := s[1..];
      forall i, j | 0 <= i < j < |tail| && f(tail[i]).Some? && f(tail[j]).Some?
        ensures before(f(tail[i]).value, f(tail[j]).value)
      {
        assert tail[i] == s[i + 1] && tail[j] == s[j + 1];
      }
      FilterMapOrdered(tail, f, before);
      var t := FilterMap(tail, f);
      match f(s[0])
      case None =>
      case Some(u) =>
        forall k | 0 <= k < |t| ensures before(u, t[k]) {
          FilterMapMembers(tail, f, t[k]);
          var i :| 0 <= i < |tail| && f(tail[i]) == Some(t[k]);
          assert tail[i] == s[i + 1];
        }
        var r := [u] + t;
        forall i, j | 0 <= i < j < |r| ensures before(r[i], r[j]) {
          if i > 0 {
            assert r[i] == t[i - 1] && r[j] == t[j - 1];
          } else {
            assert r[j] == t[j - 1];
          }
        }
    }
  }

  /** Swift's `filter`. */
  function Filter<T>(s: seq<T>, p: T -> bool): (r: seq<T>)
    ensures |r| <= |s|
    ensures forall x :: x in r ==> x in s && p(x)
  {
    if s == [] then []
    else if p(s[0]) then [s[0]] + Filter(s[1..], p)
    else Filter(s[1..], p)
  }

  /** `filter` keeps exactly the elements that satisfy the predicate. */
  lemma {:induction false} FilterMembers<T>(s: seq<T>, p: T -> bool, x: T)
    ensures x in Filter(s, p) <==> x in s && p(x)
  {
    if s != [] {
      FilterMembers(s[1..], p, x);
      assert s == [s[0]] + s[1..];
    }
  }

  /** `filter` keeps the order of what it keeps. */
  lemma {:induction false} FilterIsSubsequence<T>(s: seq<T>, p: T -> bool)
    ensures IsSubsequence(Filter(s, p), s)
  {
    if s != [] {
      FilterIsSubsequence(s[1..], p);
      if p(s[0]) {
        assert Filter(s, p)[1..] == Filter(s[1..], p);
      }
    }
  }
}
