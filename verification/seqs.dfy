/** Folds over finite sequences: the `filter`, `reduce` and `length` idioms of the source. */
module Seqs {

  /** The elements of `s` that satisfy `p`, in their original order (`Array.prototype.filter`). */
  function Filter<T>(s: seq<T>, p: T -> bool): (r: seq<T>)
    ensures |r| <= |s|
    ensures forall i :: 0 <= i < |r| ==> p(r[i])
    decreases |s|
  {
    if |s| == 0 then []
    else
      var r := Filter(s[..|s| - 1], p);
      if p(s[|s| - 1]) then r + [s[|s| - 1]] else r
  }

  /** Left-to-right sum of `f` over `s` (`reduce((sum, x) => sum + f(x), 0)`). */
  function Sum<T>(s: seq<T>, f: T -> int): int
    decreases |s|
  {
    if |s| == 0 then 0 else Sum(s[..|s| - 1], f) + f(s[|s| - 1])
  }

  /** Number of elements of `s` satisfying `p` (`filter(p).length`). */
  function Count<T>(s: seq<T>, p: T -> bool): nat {
    |Filter(s, p)|
  }

  /** `a` is obtained from `b` by deleting elements (matched greedily from the end). */
  ghost predicate IsSubsequence<T>(a: seq<T>, b: seq<T>)
    decreases |a| + |b|
  {
    if |a| == 0 then true
    else if |b| == 0 then false
    else if a[|a| - 1] == b[|b| - 1] then IsSubsequence(a[..|a| - 1], b[..|b| - 1])
    else IsSubsequence(a, b[..|b| - 1])
  }

  lemma FilterMembership<T>(s: seq<T>, p: T -> bool, x: T)
    ensures x in Filter(s, p) <==> x in s && p(x)
    decreases |s|
  {
    if |s| > 0 {
      FilterMembership(s[..|s| - 1], p, x);
      assert s == s[..|s| - 1] + [s[|s| - 1]];
    }
  }

  lemma {:induction false} FilterConcat<T>(a: seq<T>, b: seq<T>, p: T -> bool)
    ensures Filter(a + b, p) == Filter(a, p) + Filter(b, p)
    decreases |b|
  {
    if |b| == 0 {
      assert a + b == a;
    } else {
      var b' := b[..|b| - 1];
      assert (a + b)[..|a + b| - 1] == a + b';
      FilterConcat(a, b', p);
    }
  }

  lemma {:induction false} SumConcat<T>(a: seq<T>, b: seq<T>, f: T -> int)
    ensures Sum(a + b, f) == Sum(a, f) + Sum(b, f)
    decreases |b|
  {
    if |b| == 0 {
      assert a + b == a;
    } else {
      var b' := b[..|b| - 1];
      assert (a + b)[..|a + b| - 1] == a + b';
      SumConcat(a, b', f);
    }
  }

  /** Filtering twice is filtering once by the conjunction. */
  lemma {:induction false} FilterFilter<T>(s: seq<T>, p: T -> bool, q: T -> bool, both: T -> bool)
    requires forall x :: both(x) == (p(x) && q(x))
    ensures Filter(Filter(s, p), q) == Filter(s, both)
    decreases |s|
  {
    if |s| > 0 {
      var s' := s[..|s| - 1];
      FilterFilter(s', p, q, both);
      var x := s[|s| - 1];
      if p(x) {
        var fp := Filter(s', p) + [x];
        assert fp[..|fp| - 1] == Filter(s', p);
      }
    }
  }

  /** Two filters commute. */
  lemma FilterCommutes<T>(s: seq<T>, p: T -> bool, q: T -> bool)
    ensures Filter(Filter(s, p), q) == Filter(Filter(s, q), p)
  {
    var both := x => p(x) && q(x);
    FilterFilter(s, p, q, both);
    FilterFilter(s, q, p, both);
  }

  /** Filters with pointwise-equal predicates agree. */
  lemma {:induction false} FilterSamePredicate<T>(s: seq<T>, p: T -> bool, q: T -> bool)
    requires forall x :: p(x) == q(x)
    ensures Filter(s, p) == Filter(s, q)
    decreases |s|
  {
    if |s| > 0 {
      FilterSamePredicate(s[..|s| - 1], p, q);
    }
  }

  /** A filter keeps everything when every element passes it. */
  lemma {:induction false} FilterKeepsAll<T>(s: seq<T>, p: T -> bool)
    requires forall i :: 0 <= i < |s| ==> p(s[i])
    ensures Filter(s, p) == s
    decreases |s|
  {
    if |s| > 0 {
      FilterKeepsAll(s[..|s| - 1], p);
      assert s == s[..|s| - 1] + [s[|s| - 1]];
    }
  }

  /** A filter keeps nothing when no element passes it. */
  lemma {:induction false} FilterKeepsNone<T>(s: seq<T>, p: T -> bool)
    requires forall i :: 0 <= i < |s| ==> !p(s[i])
    ensures Filter(s, p) == []
    decreases |s|
  {
    if |s| > 0 {
      FilterKeepsNone(s[..|s| - 1], p);
    }
  }

  /** Filtering is idempotent. */
  lemma FilterIdempotent<T>(s: seq<T>, p: T -> bool)
    ensures Filter(Filter(s, p), p) == Filter(s, p)
  {
    FilterKeepsAll(Filter(s, p), p);
  }

  /** The sum over a filter is the sum of the function zeroed outside the filter. */
  lemma {:induction false} SumFilter<T>(s: seq<T>, p: T -> bool, f: T -> int, g: T -> int)
    requires forall x :: g(x) == if p(x) then f(x) else 0
    ensures Sum(Filter(s, p), f) == Sum(s, g)
    decreases |s|
  {
    if |s| > 0 {
      var s' := s[..|s| - 1];
      SumFilter(s', p, f, g);
      var x := s[|s| - 1];
      if p(x) {
        var fp := Filter(s', p) + [x];
        assert fp[..|fp| - 1] == Filter(s', p);
      }
    }
  }

  /** Sums of pointwise-equal functions agree. */
  lemma {:induction false} SumSameFunction<T>(s: seq<T>, f: T -> int, g: T -> int)
    requires forall x :: f(x) == g(x)
    ensures Sum(s, f) == Sum(s, g)
    decreases |s|
  {
    if |s| > 0 {
      SumSameFunction(s[..|s| - 1], f, g);
    }
  }

  /** The sum of a pointwise sum is the sum of the sums. */
  lemma {:induction false} SumAdd<T>(s: seq<T>, f: T -> int, g: T -> int, h: T -> int)
    requires forall x :: h(x) == f(x) + g(x)
    ensures Sum(s, h) == Sum(s, f) + Sum(s, g)
    decreases |s|
  {
    if |s| > 0 {
      SumAdd(s[..|s| - 1], f, g, h);
    }
  }

  /** Splitting a sum by a predicate and its negation. */
  lemma SumPartition<T>(s: seq<T>, p: T -> bool, notP: T -> bool, f: T -> int)
    requires forall x :: notP(x) == !p(x)
    ensures Sum(s, f) == Sum(Filter(s, p), f) + Sum(Filter(s, notP), f)
  {
    var g1 := x => if p(x) then f(x) else 0;
    var g2 := x => if notP(x) then f(x) else 0;
    SumFilter(s, p, f, g1);
    SumFilter(s, notP, f, g2);
    SumAdd(s, g1, g2, f);
  }

  /** Counting by a predicate and its negation covers every element. */
  lemma {:induction false} CountPartition<T>(s: seq<T>, p: T -> bool, notP: T -> bool)
    requires forall x :: notP(x) == !p(x)
    ensures Count(s, p) + Count(s, notP) == |s|
    decreases |s|
  {
    if |s| > 0 {
      CountPartition(s[..|s| - 1], p, notP);
    }
  }

  /** A sum of non-negative terms is non-negative. */
  lemma {:induction false} SumNonNegative<T>(s: seq<T>, f: T -> int)
    requires forall i :: 0 <= i < |s| ==> f(s[i]) >= 0
    ensures Sum(s, f) >= 0
    decreases |s|
  {
    if |s| > 0 {
      SumNonNegative(s[..|s| - 1], f);
    }
  }

  lemma {:induction false} SubsequenceDropLast<T>(a: seq<T>, b: seq<T>)
    requires |a| > 0 && IsSubsequence(a, b)
    ensures IsSubsequence(a[..|a| - 1], b)
    decreases |a| + |b|, 0
  {
    var a' := a[..|a| - 1];
    if |a'| > 0 {
      var b' := b[..|b| - 1];
      if a[|a| - 1] == b[|b| - 1] {
        SubsequenceExtend(a', b', b[|b| - 1]);
        assert b' + [b[|b| - 1]] == b;
      } else {
        SubsequenceDropLast(a, b');
        SubsequenceExtend(a', b', b[|b| - 1]);
        assert b' + [b[|b| - 1]] == b;
      }
    }
  }

  lemma {:induction false} SubsequenceExtend<T>(a: seq<T>, b: seq<T>, x: T)
    requires IsSubsequence(a, b)
    ensures IsSubsequence(a, b + [x])
    decreases |a| + |b|, 1
  {
    var b2 := b + [x];
    assert b2[..|b2| - 1] == b;
    if |a| > 0 && a[|a| - 1] == x {
      SubsequenceDropLast(a, b);
    }
  }

  /** A filter result is an order-preserving subsequence of its input. */
  lemma {:induction false} FilterIsSubsequence<T>(s: seq<T>, p: T -> bool)
    ensures IsSubsequence(Filter(s, p), s)
    decreases |s|
  {
    if |s| > 0 {
      var s' := s[..|s| - 1];
      var x := s[|s| - 1];
      FilterIsSubsequence(s', p);
      if p(x) {
        var r := Filter(s', p) + [x];
        assert r[..|r| - 1] == Filter(s', p);
      } else {
        SubsequenceExtend(Filter(s', p), s', x);
        assert s' + [x] == s;
      }
    }
  }

  /** A weaker predicate keeps at least as much. */
  lemma {:induction false} FilterMonotone<T>(s: seq<T>, p: T -> bool, q: T -> bool)
    requires forall x :: p(x) ==> q(x)
    ensures |Filter(s, p)| <= |Filter(s, q)|
    decreases |s|
  {
    if |s| > 0 {
      FilterMonotone(s[..|s| - 1], p, q);
    }
  }

  /** Sum of `amount` over the elements whose `key` is `k`. */
  function SumWhere<T, K(==)>(xs: seq<T>, key: T -> K, k: K, amount: T -> int): int
    decreases |xs|
  {
    if |xs| == 0 then 0
    else SumWhere(xs[..|xs| - 1], key, k, amount) + (if key(xs[|xs| - 1]) == k then amount(xs[|xs| - 1]) else 0)
  }

  /** Number of elements whose `key` is `k`. */
  function CountWhere<T, K(==)>(xs: seq<T>, key: T -> K, k: K): nat
    decreases |xs|
  {
    if |xs| == 0 then 0
    else CountWhere(xs[..|xs| - 1], key, k) + (if key(xs[|xs| - 1]) == k then 1 else 0)
  }

  /** Filtering by "the key is `k`" and summing is `SumWhere`. */
  lemma {:induction false} FilterSumWhere<T, K>(xs: seq<T>, p: T -> bool, key: T -> K, k: K, amount: T -> int)
    requires forall x :: p(x) <==> key(x) == k
    ensures Sum(Filter(xs, p), amount) == SumWhere(xs, key, k, amount)
    decreases |xs|
  {
    if |xs| > 0 {
      var xs' := xs[..|xs| - 1];
      FilterSumWhere(xs', p, key, k, amount);
      if p(xs[|xs| - 1]) {
        var f := Filter(xs', p) + [xs[|xs| - 1]];
        assert f[..|f| - 1] == Filter(xs', p);
      }
    }
  }

  /** Filtering by "the key is `k`" and counting is `CountWhere`. */
  lemma {:induction false} FilterCountWhere<T, K>(xs: seq<T>, p: T -> bool, key: T -> K, k: K)
    requires forall x :: p(x) <==> key(x) == k
    ensures Count(xs, p) == CountWhere(xs, key, k)
    decreases |xs|
  {
    if |xs| > 0 {
      FilterCountWhere(xs[..|xs| - 1], p, key, k);
    }
  }

  /** An element whose key is none of three distinct keys is counted by none of them, so the
      three counts never exceed the length. */
  lemma {:induction false} ThreeCountsBounded<T, K>(xs: seq<T>, key: T -> K, a: K, b: K, c: K)
    requires a != b && b != c && a != c
    ensures CountWhere(xs, key, a) + CountWhere(xs, key, b) + CountWhere(xs, key, c) <= |xs|
    decreases |xs|
  {
    if |xs| > 0 {
      ThreeCountsBounded(xs[..|xs| - 1], key, a, b, c);
    }
  }

  /** `SumWhere` over a concatenation. */
  lemma {:induction false} SumWhereConcat<T, K>(xs: seq<T>, ys: seq<T>, key: T -> K, k: K, amount: T -> int)
    ensures SumWhere(xs + ys, key, k, amount) == SumWhere(xs, key, k, amount) + SumWhere(ys, key, k, amount)
    decreases |ys|
  {
    if |ys| == 0 {
      assert xs + ys == xs;
    } else {
      var ys' := ys[..|ys| - 1];
      assert (xs + ys)[..|xs + ys| - 1] == xs + ys';
      SumWhereConcat(xs, ys', key, k, amount);
    }
  }

  /** Elements with a different key do not contribute to `SumWhere`. */
  lemma {:induction false} SumWhereAbsent<T, K>(xs: seq<T>, key: T -> K, k: K, amount: T -> int)
    requires forall i :: 0 <= i < |xs| ==> key(xs[i]) != k
    ensures SumWhere(xs, key, k, amount) == 0
    decreases |xs|
  {
    if |xs| > 0 {
      SumWhereAbsent(xs[..|xs| - 1], key, k, amount);
    }
  }

  /** Counting is summing ones. */
  lemma {:induction false} CountIsSumOfOnes<T, K>(xs: seq<T>, key: T -> K, k: K, one: T -> int)
    requires forall x :: one(x) == 1
    ensures CountWhere(xs, key, k) == SumWhere(xs, key, k, one)
    decreases |xs|
  {
    if |xs| > 0 {
      CountIsSumOfOnes(xs[..|xs| - 1], key, k, one);
    }
  }

  /** The length is the sum of ones. */
  lemma {:induction false} LengthIsSumOfOnes<T>(xs: seq<T>, one: T -> int)
    requires forall x :: one(x) == 1
    ensures Sum(xs, one) == |xs|
    decreases |xs|
  {
    if |xs| > 0 {
      LengthIsSumOfOnes(xs[..|xs| - 1], one);
    }
  }

  /** Sums of two sequences that agree position by position. */
  lemma {:induction false} SumPointwise<A, B>(a: seq<A>, f: A -> int, b: seq<B>, g: B -> int)
    requires |a| == |b|
    requires forall i :: 0 <= i < |a| ==> f(a[i]) == g(b[i])
    ensures Sum(a, f) == Sum(b, g)
    decreases |a|
  {
    if |a| > 0 {
      SumPointwise(a[..|a| - 1], f, b[..|b| - 1], g);
    }
  }

  /** `active ? s.filter(p) : s`, one optional stage of a filter chain. */
  function FilterIf<T>(s: seq<T>, active: bool, p: T -> bool): seq<T> {
    if active then Filter(s, p) else s
  }

  /** The predicate of an optional stage: everything passes an inactive stage. */
  function Guard<T>(active: bool, p: T -> bool): T -> bool {
    x => !active || p(x)
  }

  lemma FilterIfIsFilter<T>(s: seq<T>, active: bool, p: T -> bool)
    ensures FilterIf(s, active, p) == Filter(s, Guard(active, p))
  {
    if active {
      FilterSamePredicate(s, p, Guard(active, p));
    } else {
      FilterKeepsAll(s, Guard(active, p));
    }
  }

  /** One more optional stage after a filter is a filter by the conjunction. */
  lemma StageAfter<T>(s: seq<T>, prev: T -> bool, c: bool, r: T -> bool, next: T -> bool)
    requires forall x :: next(x) == (prev(x) && (!c || r(x)))
    ensures FilterIf(Filter(s, prev), c, r) == Filter(s, next)
  {
    FilterIfIsFilter(Filter(s, prev), c, r);
    FilterFilter(s, prev, Guard(c, r), next);
  }

  /** Four optional stages in a row keep exactly the elements that pass all four, so the
      chain is a single filter: order-preserving, and indifferent to the order of stages. */
  lemma FourStageChain<T>(s: seq<T>, a: bool, p: T -> bool, b: bool, q: T -> bool, c: bool, r: T -> bool,
                          d: bool, t: T -> bool, all: T -> bool)
    requires forall x :: all(x) == ((!a || p(x)) && (!b || q(x)) && (!c || r(x)) && (!d || t(x)))
    ensures FilterIf(FilterIf(FilterIf(FilterIf(s, a, p), b, q), c, r), d, t) == Filter(s, all)
  {
    var g := Guard(a, p);
    var ab := x => (!a || p(x)) && (!b || q(x));
    var abc := x => (!a || p(x)) && (!b || q(x)) && (!c || r(x));
    FilterIfIsFilter(s, a, p);
    StageAfter(s, g, b, q, ab);
    StageAfter(s, ab, c, r, abc);
    StageAfter(s, abc, d, t, all);
  }
}
