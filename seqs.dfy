/** `Array.prototype.filter` and the facts about it that the list view relies on. */
module Seqs {

  /** `r` is `xs` with some elements left out, in their original order. */
  ghost predicate Subsequence<T>(r: seq<T>, xs: seq<T>)
    decreases |xs|
  {
    if xs == [] then r == []
    else (r != [] && r[0] == xs[0] && Subsequence(r[1..], xs[1..])) || Subsequence(r, xs[1..])
  }

  /** The elements of `xs` that `keep` accepts, in order, each with as many copies as `xs` has. */
  function Filter<T(==,!new)>(xs: seq<T>, keep: T -> bool): (r: seq<T>)
    ensures |r| <= |xs|
    ensures Subsequence(r, xs)
    ensures forall x :: x in r <==> x in xs && keep(x)
    ensures forall x :: multiset(r)[x] == if keep(x) then multiset(xs)[x] else 0
    decreases |xs|
  {
    if xs == [] then []
    else
      assert xs == [xs[0]] + xs[1..];
      if keep(xs[0]) then [xs[0]] + Filter(xs[1..], keep)
      else Filter(xs[1..], keep)
  }

  /** A filter that accepts every element of `xs` returns `xs` itself, same elements, same order. */
  lemma {:induction false} FilterKeepingAll<T(!new)>(xs: seq<T>, keep: T -> bool)
    requires forall x :: x in xs ==> keep(x)
    ensures Filter(xs, keep) == xs
    decreases |xs|
  {
    if xs != [] {
      assert xs[0] in xs;
      assert forall x :: x in xs[1..] ==> x in xs;
      FilterKeepingAll(xs[1..], keep);
      assert [xs[0]] + xs[1..] == xs;
    }
  }

  /** Two tests that agree on every element of `xs` filter it to the same sequence. */
  lemma {:induction false} FilterAgreeing<T(!new)>(xs: seq<T>, p: T -> bool, q: T -> bool)
    requires forall x :: x in xs ==> p(x) == q(x)
    ensures Filter(xs, p) == Filter(xs, q)
    decreases |xs|
  {
    if xs != [] {
      assert xs[0] in xs;
      assert forall x :: x in xs[1..] ==> x in xs;
      FilterAgreeing(xs[1..], p, q);
    }
  }

  /**
   * Three mutually exclusive tests together keep at most every element once; they
   * keep every element exactly when each element passes one of them.
   */
  lemma {:induction false} DisjointFilterLengths<T(!new)>(xs: seq<T>, p: T -> bool, q: T -> bool, s: T -> bool)
    requires forall x :: x in xs ==> !(p(x) && q(x)) && !(p(x) && s(x)) && !(q(x) && s(x))
    ensures |Filter(xs, p)| + |Filter(xs, q)| + |Filter(xs, s)| <= |xs|
    ensures |Filter(xs, p)| + |Filter(xs, q)| + |Filter(xs, s)| == |xs|
        <==> forall x :: x in xs ==> p(x) || q(x) || s(x)
    decreases |xs|
  {
    if xs != [] {
      assert xs[0] in xs;
      assert forall x :: x in xs[1..] ==> x in xs;
      DisjointFilterLengths(xs[1..], p, q, s);
      assert forall x :: x in xs ==> x == xs[0] || x in xs[1..];
    }
  }
}
