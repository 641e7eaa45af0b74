/**
  Row selection by a boolean mask, as a data frame does it with
  `df[mask]`: the rows for which the mask holds are kept, in table order.
  Both the payload range filter and the per-site group selection of the
  dashboard are instances of it.
 */
module Filtering {

  /** The rows of `xs` that satisfy `p`, in their original order. */
  function Filter<T>(xs: seq<T>, p: T -> bool): (ys: seq<T>)
    ensures |ys| <= |xs|
    ensures forall y :: y in ys ==> y in xs && p(y)
  {
    if xs == [] then []
    else if p(xs[0]) then [xs[0]] + Filter(xs[1..], p)
    else Filter(xs[1..], p)
  }

  /** `ys` can be obtained from `xs` by deleting elements (order kept). */
  ghost predicate Subsequence<T>(ys: seq<T>, xs: seq<T>)
    decreases |xs|
  {
    if ys == [] then true
    else if xs == [] then false
    else (ys[0] == xs[0] && Subsequence(ys[1..], xs[1..])) || Subsequence(ys, xs[1..])
  }

  /** Filtering a concatenation filters each part: the kept rows stay in table order. */
  lemma {:induction false} FilterConcat<T>(a: seq<T>, b: seq<T>, p: T -> bool)
    ensures Filter(a + b, p) == Filter(a, p) + Filter(b, p)
  {
    if a == [] {
      assert a + b == b;
    } else {
      assert (a + b)[1..] == a[1..] + b;
      FilterConcat(a[1..], b, p);
    }
  }

  /** The mask keeps a row exactly as often as it occurs, when the row satisfies it. */
  lemma {:induction false} FilterMultiplicity<T>(xs: seq<T>, p: T -> bool, y: T)
    ensures multiset(Filter(xs, p))[y] == if p(y) then multiset(xs)[y] else 0
  {
    if xs != [] {
      FilterMultiplicity(xs[1..], p, y);
      assert xs == [xs[0]] + xs[1..];
    }
  }

  /** Every row that satisfies the mask is kept. */
  lemma FilterComplete<T>(xs: seq<T>, p: T -> bool, y: T)
    requires y in xs && p(y)
    ensures y in Filter(xs, p)
  {
    FilterMultiplicity(xs, p, y);
  }

  /** The filtered rows are a subsequence of the input. */
  lemma {:induction false} FilterSubsequence<T>(xs: seq<T>, p: T -> bool)
    ensures Subsequence(Filter(xs, p), xs)
  {
    if xs != [] {
      FilterSubsequence(xs[1..], p);
      if p(xs[0]) {
        assert Filter(xs, p)[1..] == Filter(xs[1..], p);
      }
    }
  }

  /** A mask that no row satisfies selects nothing. */
  lemma {:induction false} FilterNone<T>(xs: seq<T>, p: T -> bool)
    requires forall x :: x in xs ==> !p(x)
    ensures Filter(xs, p) == []
  {
    if xs != [] {
      FilterNone(xs[1..], p);
    }
  }
}
