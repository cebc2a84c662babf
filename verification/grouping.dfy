/** Grouping into an insertion-ordered table, the `obj[k] = (obj[k] || 0) + v` idiom followed
    by `Object.entries`, and a stable descending sort of the resulting groups. */
module Grouping {
  import opened Seqs

  /** One entry of the table: a key and its accumulated total. */
  datatype Group<K> = Group(key: K, total: int)

  function Keys<K>(gs: seq<Group<K>>): (ks: seq<K>)
    ensures |ks| == |gs|
    ensures forall i :: 0 <= i < |gs| ==> ks[i] == gs[i].key
  {
    seq(|gs|, i requires 0 <= i < |gs| => gs[i].key)
  }

  predicate NoDuplicates<K(==)>(ks: seq<K>) {
    forall i, j :: 0 <= i < j < |ks| ==> ks[i] != ks[j]
  }

  function MapSeq<T, U>(s: seq<T>, f: T -> U): (r: seq<U>)
    ensures |r| == |s|
    ensures forall i :: 0 <= i < |s| ==> r[i] == f(s[i])
  {
    seq(|s|, i requires 0 <= i < |s| => f(s[i]))
  }

  /** Mapping one more element appends its image. */
  lemma MapSeqSnoc<T, U>(s: seq<T>, x: T, f: T -> U)
    ensures MapSeq(s + [x], f) == MapSeq(s, f) + [f(x)]
  {
  }

  /** The keys of `ks` without repetition, in order of first occurrence. */
  function Distinct<K(==)>(ks: seq<K>): (r: seq<K>)
    ensures NoDuplicates(r)
    ensures forall i :: 0 <= i < |ks| ==> ks[i] in r
    ensures forall i :: 0 <= i < |r| ==> r[i] in ks
    decreases |ks|
  {
    if |ks| == 0 then []
    else
      var r := Distinct(ks[..|ks| - 1]);
      assert forall i :: 0 <= i < |ks| - 1 ==> ks[i] == ks[..|ks| - 1][i];
      if ks[|ks| - 1] in r then r else r + [ks[|ks| - 1]]
  }

  /** Adds `v` to the total of key `k`, or appends a new group `k` when there is none. */
  function Bump<K(==)>(gs: seq<Group<K>>, k: K, v: int): (r: seq<Group<K>>)
    requires NoDuplicates(Keys(gs))
    ensures k in Keys(gs) ==> Keys(r) == Keys(gs)
    ensures k !in Keys(gs) ==> Keys(r) == Keys(gs) + [k] && r[|gs|] == Group(k, v)
    ensures forall i :: 0 <= i < |gs| ==> r[i].total == gs[i].total + (if gs[i].key == k then v else 0)
    decreases |gs|
  {
    if |gs| == 0 then [Group(k, v)]
    else if gs[0].key == k then
      HeadKeyOnce(gs);
      [Group(k, gs[0].total + v)] + gs[1..]
    else
      TailNoDuplicates(gs);
      [gs[0]] + Bump(gs[1..], k, v)
  }

  /** In a table without repeated keys, the first key occurs nowhere else. */
  lemma HeadKeyOnce<K>(gs: seq<Group<K>>)
    requires |gs| > 0 && NoDuplicates(Keys(gs))
    ensures forall i :: 0 < i < |gs| ==> gs[i].key != gs[0].key
  {
    assert forall i :: 0 < i < |gs| ==> Keys(gs)[0] != Keys(gs)[i];
  }

  /** Dropping the first group keeps the keys free of repeats. */
  lemma TailNoDuplicates<K>(gs: seq<Group<K>>)
    requires |gs| > 0 && NoDuplicates(Keys(gs))
    ensures Keys(gs[1..]) == Keys(gs)[1..] && NoDuplicates(Keys(gs[1..]))
  {
    assert Keys(gs[1..]) == Keys(gs)[1..];
  }

  /** The table built by folding `Bump` over `xs`: one group per distinct key, in order of
      first occurrence, each holding the sum of `amount` over the elements with that key. */
  function Tally<T, K(==)>(xs: seq<T>, key: T -> K, amount: T -> int): (gs: seq<Group<K>>)
    ensures Keys(gs) == Distinct(MapSeq(xs, key))
    ensures forall i :: 0 <= i < |gs| ==> gs[i].total == SumWhere(xs, key, gs[i].key, amount)
    decreases |xs|
  {
    if |xs| == 0 then []
    else
      var gs' := Tally(xs[..|xs| - 1], key, amount);
      TallyStep(xs, key, amount, gs');
      Bump(gs', key(xs[|xs| - 1]), amount(xs[|xs| - 1]))
  }

  /** One step of `Tally`: bumping the last element's key keeps the table faithful. */
  lemma TallyStep<T, K>(xs: seq<T>, key: T -> K, amount: T -> int, gs': seq<Group<K>>)
    requires |xs| > 0
    requires Keys(gs') == Distinct(MapSeq(xs[..|xs| - 1], key))
    requires forall i :: 0 <= i < |gs'| ==> gs'[i].total == SumWhere(xs[..|xs| - 1], key, gs'[i].key, amount)
    ensures NoDuplicates(Keys(gs'))
    ensures var gs := Bump(gs', key(xs[|xs| - 1]), amount(xs[|xs| - 1]));
      && Keys(gs) == Distinct(MapSeq(xs, key))
      && forall i :: 0 <= i < |gs| ==> gs[i].total == SumWhere(xs, key, gs[i].key, amount)
  {
    var xs' := xs[..|xs| - 1];
    var x := xs[|xs| - 1];
    var k := key(x);
    assert MapSeq(xs, key)[..|xs| - 1] == MapSeq(xs', key);
    assert MapSeq(xs, key)[|xs| - 1] == k;
    var gs := Bump(gs', k, amount(x));
    forall i | 0 <= i < |gs|
      ensures gs[i].total == SumWhere(xs, key, gs[i].key, amount)
    {
      if i < |gs'| {
        TallyStepOld(xs, key, amount, gs', i);
      } else {
        TallyStepNew(xs, key, amount, gs');
      }
    }
  }

  /** A group already in the table gains the last element's amount when the keys match. */
  lemma TallyStepOld<T, K>(xs: seq<T>, key: T -> K, amount: T -> int, gs': seq<Group<K>>, i: int)
    requires |xs| > 0 && 0 <= i < |gs'|
    requires NoDuplicates(Keys(gs'))
    requires gs'[i].total == SumWhere(xs[..|xs| - 1], key, gs'[i].key, amount)
    ensures var gs := Bump(gs', key(xs[|xs| - 1]), amount(xs[|xs| - 1]));
      gs[i].key == gs'[i].key && gs[i].total == SumWhere(xs, key, gs[i].key, amount)
  {
    var gs := Bump(gs', key(xs[|xs| - 1]), amount(xs[|xs| - 1]));
    assert Keys(gs)[i] == Keys(gs')[i];
  }

  /** A key seen for the first time opens a group holding just the last element's amount. */
  lemma TallyStepNew<T, K>(xs: seq<T>, key: T -> K, amount: T -> int, gs': seq<Group<K>>)
    requires |xs| > 0
    requires Keys(gs') == Distinct(MapSeq(xs[..|xs| - 1], key))
    ensures var gs := Bump(gs', key(xs[|xs| - 1]), amount(xs[|xs| - 1]));
      |gs| > |gs'| ==> gs[|gs'|].total == SumWhere(xs, key, gs[|gs'|].key, amount)
  {
    var xs' := xs[..|xs| - 1];
    var k := key(xs[|xs| - 1]);
    if k !in Keys(gs') {
      forall i | 0 <= i < |xs'|
        ensures key(xs'[i]) != k
      {
        assert MapSeq(xs', key)[i] == key(xs'[i]);
      }
      SumWhereAbsent(xs', key, k, amount);
    }
  }

  /** Any groups taken from a tally hold the sums of their keys. */
  lemma TallyMembers<T, K>(xs: seq<T>, key: T -> K, amount: T -> int, r: seq<Group<K>>)
    requires forall i :: 0 <= i < |r| ==> r[i] in Tally(xs, key, amount)
    ensures forall i :: 0 <= i < |r| ==> r[i].total == SumWhere(xs, key, r[i].key, amount)
  {
    var gs := Tally(xs, key, amount);
    forall i | 0 <= i < |r|
      ensures r[i].total == SumWhere(xs, key, r[i].key, amount)
    {
      var j :| 0 <= j < |gs| && gs[j] == r[i];
    }
  }

  function TotalOf<K>(g: Group<K>): int { g.total }

  /** Sum of the totals of a table. */
  function SumTotals<K>(gs: seq<Group<K>>): int {
    Sum(gs, TotalOf)
  }

  lemma {:induction false} BumpSum<K>(gs: seq<Group<K>>, k: K, v: int)
    requires NoDuplicates(Keys(gs))
    ensures SumTotals(Bump(gs, k, v)) == SumTotals(gs) + v
    decreases |gs|
  {
    if |gs| == 0 {
      SumTotalsCons(Group(k, v), []);
    } else {
      assert gs == [gs[0]] + gs[1..];
      SumTotalsCons(gs[0], gs[1..]);
      if gs[0].key != k {
        assert Keys(gs[1..]) == Keys(gs)[1..];
        BumpSum(gs[1..], k, v);
        SumTotalsCons(gs[0], Bump(gs[1..], k, v));
      } else {
        SumTotalsCons(Group(k, gs[0].total + v), gs[1..]);
      }
    }
  }

  /** The sum of a table with one group in front. */
  lemma SumTotalsCons<K>(g: Group<K>, rest: seq<Group<K>>)
    ensures SumTotals([g] + rest) == g.total + SumTotals(rest)
  {
    SumConcat([g], rest, TotalOf);
    assert Sum([g], TotalOf) == Sum([g][..0], TotalOf) + g.total;
  }

  /** Nothing is lost or double-counted: the totals of the table add up to the sum over all
      elements. */
  lemma {:induction false} TallySum<T, K>(xs: seq<T>, key: T -> K, amount: T -> int)
    ensures SumTotals(Tally(xs, key, amount)) == Sum(xs, amount)
    decreases |xs|
  {
    if |xs| > 0 {
      var xs' := xs[..|xs| - 1];
      TallySum(xs', key, amount);
      BumpSum(Tally(xs', key, amount), key(xs[|xs| - 1]), amount(xs[|xs| - 1]));
    }
  }

  /** Totals are non-increasing along the sequence. */
  predicate SortedDescending<K>(gs: seq<Group<K>>) {
    forall i, j :: 0 <= i < j < |gs| ==> gs[i].total >= gs[j].total
  }

  /** Inserts `g` after every group whose total is at least `g`'s, keeping earlier groups
      ahead of later ones among equal totals. */
  function InsertDescending<K>(sorted: seq<Group<K>>, g: Group<K>): (r: seq<Group<K>>)
    requires SortedDescending(sorted)
    ensures SortedDescending(r)
    ensures |r| == |sorted| + 1
    ensures r[0] == g || (|sorted| > 0 && r[0] == sorted[0])
    decreases |sorted|
  {
    if |sorted| == 0 then [g]
    else if sorted[0].total >= g.total then
      var rest := InsertDescending(sorted[1..], g);
      assert forall i :: 0 <= i < |rest| ==> sorted[0].total >= rest[0].total >= rest[i].total;
      [sorted[0]] + rest
    else [g] + sorted
  }

  /** Insertion adds exactly `g`. */
  lemma {:induction false} InsertDescendingPermutes<K>(sorted: seq<Group<K>>, g: Group<K>)
    requires SortedDescending(sorted)
    ensures multiset(InsertDescending(sorted, g)) == multiset(sorted) + multiset{g}
    decreases |sorted|
  {
    if |sorted| > 0 && sorted[0].total >= g.total {
      InsertDescendingPermutes(sorted[1..], g);
      assert sorted == [sorted[0]] + sorted[1..];
    }
  }

  /** A stable sort by descending total (`sort((a, b) => b.amount - a.amount)`). */
  function SortDescending<K>(gs: seq<Group<K>>): (r: seq<Group<K>>)
    ensures SortedDescending(r)
    ensures multiset(r) == multiset(gs)
    ensures |r| == |gs|
    decreases |gs|
  {
    if |gs| == 0 then []
    else
      assert gs == gs[..|gs| - 1] + [gs[|gs| - 1]];
      InsertDescendingPermutes(SortDescending(gs[..|gs| - 1]), gs[|gs| - 1]);
      InsertDescending(SortDescending(gs[..|gs| - 1]), gs[|gs| - 1])
  }

  /** Insertion adds `g`'s total to the sum. */
  lemma {:induction false} InsertDescendingSum<K>(sorted: seq<Group<K>>, g: Group<K>)
    requires SortedDescending(sorted)
    ensures SumTotals(InsertDescending(sorted, g)) == SumTotals(sorted) + g.total
    decreases |sorted|
  {
    var r := InsertDescending(sorted, g);
    if |sorted| == 0 {
      assert Sum([g], TotalOf) == Sum([g][..0], TotalOf) + g.total;
    } else {
      assert sorted == [sorted[0]] + sorted[1..];
      assert r == [r[0]] + r[1..];
      SumConcat([sorted[0]], sorted[1..], TotalOf);
      SumConcat([r[0]], r[1..], TotalOf);
      assert Sum([sorted[0]], TotalOf) == Sum([sorted[0]][..0], TotalOf) + sorted[0].total;
      assert Sum([r[0]], TotalOf) == Sum([r[0]][..0], TotalOf) + r[0].total;
      if sorted[0].total >= g.total {
        InsertDescendingSum(sorted[1..], g);
      } else {
        assert r[1..] == sorted;
        assert Sum([g], TotalOf) == Sum([g][..0], TotalOf) + g.total;
      }
    }
  }

  /** Sorting keeps the sum of the totals. */
  lemma {:induction false} SortDescendingSum<K>(gs: seq<Group<K>>)
    ensures SumTotals(SortDescending(gs)) == SumTotals(gs)
    decreases |gs|
  {
    if |gs| > 0 {
      SortDescendingSum(gs[..|gs| - 1]);
      InsertDescendingSum(SortDescending(gs[..|gs| - 1]), gs[|gs| - 1]);
    }
  }
}
