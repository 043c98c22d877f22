/** LINQ's `Where` over a sequence, with the facts every filter chain relies on. */
module Sequences {

  /** The elements of `xs` that satisfy `p`, in their original order. */
  function Where<T>(xs: seq<T>, p: T -> bool): (r: seq<T>)
    ensures |r| <= |xs|
    ensures forall x :: x in r ==> x in xs && p(x)
    ensures forall x :: x in xs && p(x) ==> x in r
    decreases |xs|
  {
    if xs == [] then []
    else if p(xs[0]) then [xs[0]] + Where(xs[1..], p)
    else Where(xs[1..], p)
  }

  /** `r` can be obtained from `xs` by deleting elements. */
  predicate IsSubsequence<T(==)>(r: seq<T>, xs: seq<T>)
    decreases |xs|
  {
    if r == [] then true
    else if xs == [] then false
    else if r[0] == xs[0] then IsSubsequence(r[1..], xs[1..])
    else IsSubsequence(r, xs[1..])
  }

  /** A filter keeps the relative order of what it keeps. */
  lemma {:induction false} WhereIsSubsequence<T>(xs: seq<T>, p: T -> bool)
    ensures IsSubsequence(Where(xs, p), xs)
    decreases |xs|
  {
    if xs != [] {
      WhereIsSubsequence(xs[1..], p);
      var rest := Where(xs[1..], p);
      if p(xs[0]) {
        assert ([xs[0]] + rest)[1..] == rest;
      }
    }
  }

  /** Filtering twice is filtering once by both predicates. */
  lemma {:induction false} WhereWhere<T>(xs: seq<T>, p: T -> bool, q: T -> bool, both: T -> bool)
    requires forall x :: both(x) == (p(x) && q(x))
    ensures Where(Where(xs, p), q) == Where(xs, both)
    decreases |xs|
  {
    if xs != [] {
      WhereWhere(xs[1..], p, q, both);
      if p(xs[0]) {
        var rest := Where(xs[1..], p);
        assert ([xs[0]] + rest)[0] == xs[0];
        assert ([xs[0]] + rest)[1..] == rest;
      }
    }
  }

  /** A filter that keeps everything changes nothing. */
  lemma {:induction false} WhereAll<T>(xs: seq<T>, p: T -> bool)
    requires forall x :: p(x)
    ensures Where(xs, p) == xs
    decreases |xs|
  {
    if xs != [] {
      WhereAll(xs[1..], p);
    }
  }

  /** Filters by pointwise-equal predicates agree. */
  lemma {:induction false} WhereCongruent<T>(xs: seq<T>, p: T -> bool, q: T -> bool)
    requires forall x :: p(x) == q(x)
    ensures Where(xs, p) == Where(xs, q)
    decreases |xs|
  {
    if xs != [] {
      WhereCongruent(xs[1..], p, q);
    }
  }
}
