/** Sequence operations behind the pages' `Array.prototype.filter` and
    `reduce((acc, x) => acc + f(x), 0)` calls, with the facts the pages rely on. */
module Seqs {

  /** `a` can be obtained from `b` by deleting elements: an order-preserving
      subsequence. */
  predicate IsSubsequence<T(==)>(a: seq<T>, b: seq<T>)
    decreases |b|
  {
    |a| == 0 ||
    (|b| > 0 && ((a[0] == b[0] && IsSubsequence(a[1..], b[1..])) || IsSubsequence(a, b[1..])))
  }

  /** `xs.filter(p)`. The result keeps every occurrence of the elements
      satisfying `p`, in their original order, and nothing else. */
  function Filter<T(==)>(xs: seq<T>, p: T -> bool): (r: seq<T>)
    ensures |r| <= |xs|
    ensures forall x :: x in r ==> x in xs && p(x)
    ensures forall x :: x in xs && p(x) ==> x in r
    ensures forall x :: x in xs ==> multiset(r)[x] == if p(x) then multiset(xs)[x] else 0
    ensures IsSubsequence(r, xs)
  {
    if |xs| == 0 then []
    else
      var rest := Filter(xs[1..], p);
      assert xs == [xs[0]] + xs[1..];
      assert forall x :: x in xs && x !in xs[1..] ==> multiset(xs[1..])[x] == 0 && multiset(rest)[x] == 0;
      if p(xs[0]) then [xs[0]] + rest else rest
  }

  /** Filtering with a predicate every element satisfies returns the input. */
  lemma {:induction false} FilterKeepsAll<T>(xs: seq<T>, p: T -> bool)
    requires forall i :: 0 <= i < |xs| ==> p(xs[i])
    ensures Filter(xs, p) == xs
  {
    if |xs| > 0 {
      FilterKeepsAll(xs[1..], p);
      assert [xs[0]] + xs[1..] == xs;
    }
  }

  /** Filtering a list none of whose elements satisfies `p` yields nothing. */
  lemma {:induction false} FilterKeepsNone<T>(xs: seq<T>, p: T -> bool)
    requires forall i :: 0 <= i < |xs| ==> !p(xs[i])
    ensures Filter(xs, p) == []
  {
    if |xs| > 0 {
      FilterKeepsNone(xs[1..], p);
    }
  }

  /** `xs.reduce((acc, x) => acc + f(x), 0)`. A sum of non-negative terms
      is non-negative. */
  function Sum<T>(xs: seq<T>, f: T -> int): (r: int)
    ensures (forall i :: 0 <= i < |xs| ==> f(xs[i]) >= 0) ==> r >= 0
  {
    if |xs| == 0 then 0 else f(xs[0]) + Sum(xs[1..], f)
  }

  /** Summing is additive over concatenation. */
  lemma {:induction false} SumConcat<T>(a: seq<T>, b: seq<T>, f: T -> int)
    ensures Sum(a + b, f) == Sum(a, f) + Sum(b, f)
  {
    if |a| > 0 {
      assert (a + b)[1..] == a[1..] + b;
      SumConcat(a[1..], b, f);
    } else {
      assert a + b == b;
    }
  }

  /** Splitting a list by two predicates that no element satisfies together:
      the two partial sums never exceed the total when terms are non-negative,
      and add up to it when every element satisfies one of them. */
  lemma {:induction false} SumOfDisjointFilters<T>(xs: seq<T>, f: T -> int, p: T -> bool, q: T -> bool)
    requires forall i :: 0 <= i < |xs| ==> !(p(xs[i]) && q(xs[i]))
    ensures (forall i :: 0 <= i < |xs| ==> f(xs[i]) >= 0) ==>
              Sum(Filter(xs, p), f) + Sum(Filter(xs, q), f) <= Sum(xs, f)
    ensures (forall i :: 0 <= i < |xs| ==> p(xs[i]) || q(xs[i])) ==>
              Sum(Filter(xs, p), f) + Sum(Filter(xs, q), f) == Sum(xs, f)
  {
    if |xs| > 0 {
      var x, rest := xs[0], xs[1..];
      SumOfDisjointFilters(rest, f, p, q);
      if p(x) {
        SumConcat([x], Filter(rest, p), f);
      }
      if q(x) {
        SumConcat([x], Filter(rest, q), f);
      }
    }
  }

  /** With non-negative terms, the sum over any filtered view is at most the total. */
  lemma {:induction false} SumOfFilterAtMost<T>(xs: seq<T>, f: T -> int, p: T -> bool)
    requires forall i :: 0 <= i < |xs| ==> f(xs[i]) >= 0
    ensures Sum(Filter(xs, p), f) <= Sum(xs, f)
  {
    if |xs| > 0 {
      SumOfFilterAtMost(xs[1..], f, p);
      if p(xs[0]) {
        SumConcat([xs[0]], Filter(xs[1..], p), f);
      }
    }
  }
}
