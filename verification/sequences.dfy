/**
 JavaScript's `Array.prototype.filter` on immutable sequences, with the
 properties the screens rely on: it keeps exactly the elements that pass, in
 their original order.
 */
module Sequences {

  /** `a` can be obtained from `b` by deleting elements: the elements of `a`
      occur in `b` in the same order. Matched greedily from the left. */
  predicate IsSubsequence<T(==,!new)>(a: seq<T>, b: seq<T>)
    decreases |b|
  {
    if a == [] then true
    else if b == [] then false
    else if a[0] == b[0] then IsSubsequence(a[1..], b[1..])
    else IsSubsequence(a, b[1..])
  }

  /** The elements of `xs` that satisfy `p`, in order. */
  function Filter<T(==,!new)>(xs: seq<T>, p: T -> bool): (r: seq<T>)
    ensures |r| <= |xs|
    ensures forall k :: 0 <= k < |r| ==> p(r[k])
    ensures IsSubsequence(r, xs)
    ensures forall x :: multiset(r)[x] == if p(x) then multiset(xs)[x] else 0
    ensures forall x :: x in r <==> x in xs && p(x)
    decreases |xs|
  {
    if xs == [] then []
    else
      var rest := Filter(xs[1..], p);
      assert xs == [xs[0]] + xs[1..];
      if p(xs[0]) then
        assert ([xs[0]] + rest)[1..] == rest;
        [xs[0]] + rest
      else
        rest
  }

  /** When every element passes, the filter returns its input unchanged. */
  lemma {:induction false} FilterAllPass<T(!new)>(xs: seq<T>, p: T -> bool)
    requires forall k :: 0 <= k < |xs| ==> p(xs[k])
    ensures Filter(xs, p) == xs
    decreases |xs|
  {
    if xs != [] {
      assert forall k :: 0 <= k < |xs[1..]| ==> xs[1..][k] == xs[k + 1];
      calc {
        Filter(xs, p);
        [xs[0]] + Filter(xs[1..], p);
        { FilterAllPass(xs[1..], p); }
        [xs[0]] + xs[1..];
        xs;
      }
    }
  }

  /** The filter keeps its whole input exactly when every element passes. */
  lemma {:induction false} FilterFullIffAllPass<T(!new)>(xs: seq<T>, p: T -> bool)
    ensures |Filter(xs, p)| == |xs| <==> forall k :: 0 <= k < |xs| ==> p(xs[k])
    decreases |xs|
  {
    if xs != [] {
      FilterFullIffAllPass(xs[1..], p);
      FilterCons(xs[0], xs[1..], p);
      assert xs == [xs[0]] + xs[1..];
    }
  }

  /** Filtering a list with one more element in front keeps that element in
      front when it passes and drops it otherwise. */
  lemma FilterCons<T(!new)>(x: T, xs: seq<T>, p: T -> bool)
    ensures Filter([x] + xs, p) == if p(x) then [x] + Filter(xs, p) else Filter(xs, p)
  {
  }

  /** Filters with predicates that agree on every element give the same
      result. */
  lemma {:induction false} FilterSamePredicate<T(!new)>(xs: seq<T>, p: T -> bool, q: T -> bool)
    requires forall k :: 0 <= k < |xs| ==> p(xs[k]) == q(xs[k])
    ensures Filter(xs, p) == Filter(xs, q)
    decreases |xs|
  {
    if xs != [] {
      FilterSamePredicate(xs[1..], p, q);
    }
  }
}
