/** The Gini coefficient of a load (sharding.py, `gini`): the closed form over ranks equals
    the sum of all pairwise differences over twice the number of values times their sum. */
module Gini {
  import opened Geo
  import opened Sorting

  predicate AtMost(x: real, y: real) {
    x <= y
  }

  function Sum(s: seq<real>): real {
    if s == [] then 0.0 else s[0] + Sum(s[1..])
  }

  /** The sum of (i + 1) * x_i over the first `k` values. */
  function RankSum(s: seq<real>, k: nat): real
    requires k <= |s|
  {
    if k == 0 then 0.0 else RankSum(s, k - 1) + k as real * s[k - 1]
  }

  function RankForm(rank: real, n: nat, total: real): real
    requires n > 0 && total != 0.0
  {
    NonZero(n as real, total);
    2.0 * rank / (n as real * total) - (n as real + 1.0) / n as real
  }

  lemma NonZero(x: real, y: real)
    requires x != 0.0 && y != 0.0
    ensures x * y != 0.0
  {
  }

  /** `gini`. */
  function Gini(values: seq<real>): real {
    var xs := Sort(values, AtMost);
    if |xs| == 0 then 0.0
    else if Sum(xs) == 0.0 then 0.0
    else RankForm(RankSum(xs, |xs|), |xs|, Sum(xs))
  }

  // ---------------------------------------------------------------- pairwise differences

  /** The sum of |s_i - x|. */
  function Spread(s: seq<real>, x: real): (r: real)
    ensures r >= 0.0
  {
    if s == [] then 0.0 else Abs(s[0] - x) + Spread(s[1..], x)
  }

  /** The sum of |s_i - t_j| over all i and j. */
  function Differences(s: seq<real>, t: seq<real>): (r: real)
    ensures r >= 0.0
  {
    if s == [] then 0.0 else Spread(t, s[0]) + Differences(s[1..], t)
  }

  /** The sum of the differences of all ordered pairs of values. */
  function Pairwise(s: seq<real>): real {
    Differences(s, s)
  }

  lemma {:induction false} DifferencesCons(s: seq<real>, t: seq<real>, x: real)
    ensures Differences(s, [x] + t) == Differences(s, t) + Spread(s, x)
  {
    if s != [] {
      DifferencesCons(s[1..], t, x);
      assert ([x] + t)[1..] == t;
    }
  }

  /** Every pair with a new value counts twice. */
  lemma PairwiseCons(x: real, s: seq<real>)
    ensures Pairwise([x] + s) == 2.0 * Spread(s, x) + Pairwise(s)
  {
    assert ([x] + s)[1..] == s;
    DifferencesCons(s, s, x);
  }

  // ---------------------------------------------------------------- order is irrelevant

  lemma {:induction false} SpreadInsert(x: real, s: seq<real>, y: real)
    ensures Spread(Insert(x, s, AtMost), y) == Abs(x - y) + Spread(s, y)
  {
    if s != [] && x > s[0] {
      SpreadInsert(x, s[1..], y);
      assert Insert(x, s, AtMost)[1..] == Insert(x, s[1..], AtMost);
    } else {
      assert ([x] + s)[1..] == s;
    }
  }

  lemma {:induction false} PairwiseInsert(x: real, s: seq<real>)
    ensures Pairwise(Insert(x, s, AtMost)) == 2.0 * Spread(s, x) + Pairwise(s)
  {
    if s != [] && x > s[0] {
      PairwiseInsert(x, s[1..]);
      PairwiseCons(s[0], Insert(x, s[1..], AtMost));
      PairwiseCons(s[0], s[1..]);
      SpreadInsert(x, s[1..], s[0]);
      assert s == [s[0]] + s[1..];
    } else {
      PairwiseCons(x, s);
    }
  }

  lemma {:induction false} SumInsert(x: real, s: seq<real>)
    ensures Sum(Insert(x, s, AtMost)) == x + Sum(s)
  {
    if s != [] && x > s[0] {
      SumInsert(x, s[1..]);
      assert Insert(x, s, AtMost)[1..] == Insert(x, s[1..], AtMost);
    } else {
      assert ([x] + s)[1..] == s;
    }
  }

  lemma {:induction false} SortKeeps(s: seq<real>)
    ensures Pairwise(Sort(s, AtMost)) == Pairwise(s) && Sum(Sort(s, AtMost)) == Sum(s)
  {
    if s != [] {
      SortKeeps(s[1..]);
      PairwiseInsert(s[0], Sort(s[1..], AtMost));
      SpreadSort(s[1..], s[0]);
      PairwiseCons(s[0], s[1..]);
      SumInsert(s[0], Sort(s[1..], AtMost));
      assert s == [s[0]] + s[1..];
    }
  }

  lemma {:induction false} SpreadSort(s: seq<real>, y: real)
    ensures Spread(Sort(s, AtMost), y) == Spread(s, y)
  {
    if s != [] {
      SpreadSort(s[1..], y);
      SpreadInsert(s[0], Sort(s[1..], AtMost), y);
    }
  }

  // ---------------------------------------------------------------- the rank formula

  /** Everything from `x` on. */
  ghost predicate AtLeast(s: seq<real>, x: real) {
    forall k :: 0 <= k < |s| ==> x <= s[k]
  }

  lemma OneMore(n: nat, x: real)
    ensures Times((n + 1) as real, x) == Times(n as real, x) + x
  {
  }

  /** In a sorted list the differences to the first value are not signed. */
  lemma {:induction false} SpreadAbove(s: seq<real>, x: real)
    requires AtLeast(s, x)
    ensures Spread(s, x) == Sum(s) - Times(|s| as real, x)
  {
    if s != [] {
      SpreadAbove(s[1..], x);
      OneMore(|s[1..]|, x);
    }
  }

  /** Ranks shift by one when a value is put in front. */
  lemma {:induction false} RankSumCons(x: real, s: seq<real>, k: nat)
    requires k <= |s|
    ensures RankSum([x] + s, k + 1) == x + RankSum(s, k) + Sum(s[..k])
  {
    if k == 0 {
      assert s[..0] == [];
      assert RankSum([x] + s, 1) == RankSum([x] + s, 0) + 1.0 * ([x] + s)[0];
    } else {
      RankSumCons(x, s, k - 1);
      SumSnoc(s[..k - 1], s[k - 1]);
      assert s[..k] == s[..k - 1] + [s[k - 1]];
      assert ([x] + s)[k] == s[k - 1];
    }
  }

  lemma {:induction false} SumSnoc(s: seq<real>, x: real)
    ensures Sum(s + [x]) == Sum(s) + x
  {
    if s == [] {
      assert [] + [x] == [x];
    } else {
      SumSnoc(s[1..], x);
      assert (s + [x])[1..] == s[1..] + [x];
    }
  }

  function RankExcess(rank: real, n: nat, total: real): real {
    4.0 * rank - 2.0 * (n as real + 1.0) * total
  }

  /** On sorted values the pairwise differences are a sum over ranks. */
  lemma {:induction false} PairwiseIsRankSum(s: seq<real>)
    requires Sorted(s, AtMost)
    ensures Pairwise(s) == RankExcess(RankSum(s, |s|), |s|, Sum(s))
  {
    if s != [] {
      var t := s[1..];
      PairwiseIsRankSum(t);
      PairwiseCons(s[0], t);
      SpreadAbove(t, s[0]);
      RankSumCons(s[0], t, |t|);
      assert s == [s[0]] + t && t[..|t|] == t;
      RankArithmetic(Spread(t, s[0]), RankSum(t, |t|), Sum(t), s[0], |t|);
    }
  }

  lemma RankArithmetic(spread: real, rank: real, sum: real, x: real, n: nat)
    requires spread == sum - Times(n as real, x)
    ensures 2.0 * spread + RankExcess(rank, n, sum) == RankExcess(x + rank + sum, n + 1, x + sum)
  {
  }

  function OverTwice(pairs: real, n: nat, total: real): real
    requires n > 0 && total > 0.0
  {
    NonZero(n as real, total);
    pairs / (2.0 * n as real * total)
  }

  lemma RankFormula(rank: real, n: nat, total: real)
    requires n > 0 && total > 0.0
    ensures RankForm(rank, n, total) == OverTwice(RankExcess(rank, n, total), n, total)
  {
    RankQuotients(rank, n as real, total, RankExcess(rank, n, total));
  }

  lemma RankQuotients(rank: real, n: real, total: real, pairs: real)
    requires n > 0.0 && total > 0.0 && pairs == 4.0 * rank - 2.0 * (n + 1.0) * total
    ensures n * total > 0.0 && 2.0 * rank / (n * total) - (n + 1.0) / n == pairs / (2.0 * n * total)
  {
    var g := 2.0 * rank / (n * total) - (n + 1.0) / n;
    assert 2.0 * n * total > 0.0;
    assert 2.0 * rank / (n * total) * (n * total) == 2.0 * rank;
    assert (n + 1.0) / n * n == n + 1.0;
    assert g * (2.0 * n * total) == pairs;
  }

  // ---------------------------------------------------------------- what the coefficient means

  ghost predicate NonNegative(s: seq<real>) {
    AtLeast(s, 0.0)
  }

  lemma {:induction false} SpreadBound(s: seq<real>, x: real)
    requires NonNegative(s) && x >= 0.0
    ensures Spread(s, x) <= Sum(s) + Times(|s| as real, x)
  {
    if s != [] {
      SpreadBound(s[1..], x);
      OneMore(|s[1..]|, x);
    }
  }

  lemma {:induction false} PairwiseBound(s: seq<real>)
    requires NonNegative(s) && s != []
    ensures 0.0 <= Pairwise(s) <= 2.0 * (|s| as real - 1.0) * Sum(s)
  {
    var t := s[1..];
    assert s == [s[0]] + t;
    PairwiseCons(s[0], t);
    SpreadBound(t, s[0]);
    if t != [] {
      PairwiseBound(t);
    }
    PairwiseArithmetic(Pairwise(t), Spread(t, s[0]), Sum(t), s[0], |t| as real);
  }

  lemma PairwiseArithmetic(p: real, spread: real, sum: real, x: real, n: real)
    requires (spread <= sum + Times(n, x) && p <= 2.0 * (n - 1.0) * sum) || (n == 0.0 && p == 0.0 && spread == 0.0)
    ensures 2.0 * spread + p <= 2.0 * (n + 1.0 - 1.0) * (x + sum)
  {
  }

  ghost predicate AllEqual(s: seq<real>) {
    forall i, j :: 0 <= i < j < |s| ==> s[i] == s[j]
  }

  lemma {:induction false} NoSpread(s: seq<real>, x: real)
    ensures Spread(s, x) == 0.0 <==> forall k :: 0 <= k < |s| ==> s[k] == x
  {
    if s != [] {
      NoSpread(s[1..], x);
      assert (forall k :: 0 <= k < |s[1..]| ==> s[1..][k] == x) ==> forall k :: 0 < k < |s| ==> s[1..][k - 1] == s[k] == x;
      assert (forall k :: 0 <= k < |s| ==> s[k] == x) ==> forall k :: 0 <= k < |s[1..]| ==> s[1..][k] == s[k + 1] == x;
    }
  }

  lemma {:induction false} NoDifferences(s: seq<real>)
    ensures Pairwise(s) == 0.0 <==> AllEqual(s)
  {
    if s != [] {
      var t := s[1..];
      assert s == [s[0]] + t;
      PairwiseCons(s[0], t);
      NoSpread(t, s[0]);
      NoDifferences(t);
      assert AllEqual(s) ==> AllEqual(t) && forall k :: 0 <= k < |t| ==> t[k] == s[k + 1] == s[0];
      assert (forall k :: 0 <= k < |t| ==> t[k] == s[0]) ==> forall k :: 0 < k < |s| ==> s[k] == t[k - 1] == s[0];
    }
  }

  /** The share of all but one of `n`. */
  function AllButOne(n: nat): real
    requires n > 0
  {
    (n as real - 1.0) / n as real
  }

  lemma Quotient(p: real, n: nat, total: real)
    requires n > 0 && total > 0.0 && 0.0 <= p <= 2.0 * (n as real - 1.0) * total
    ensures 0.0 <= OverTwice(p, n, total) <= AllButOne(n)
    ensures OverTwice(p, n, total) == 0.0 <==> p == 0.0
  {
    var g, r := OverTwice(p, n, total), n as real;
    assert 2.0 * r * total > 0.0;
    assert g * (2.0 * r * total) == p;
    assert (r - 1.0) / r * (2.0 * r * total) == 2.0 * (r - 1.0) * total;
  }

  lemma PairwiseQuotient(values: seq<real>)
    requires NonNegative(values) && values != [] && Sum(values) > 0.0
    ensures 0.0 <= OverTwice(Pairwise(values), |values|, Sum(values)) <= AllButOne(|values|)
    ensures OverTwice(Pairwise(values), |values|, Sum(values)) == 0.0 <==> Pairwise(values) == 0.0
  {
    PairwiseBound(values);
    Quotient(Pairwise(values), |values|, Sum(values));
  }

  lemma GiniIsPairwise(values: seq<real>)
    requires values != [] && Sum(values) > 0.0
    ensures Gini(values) == OverTwice(Pairwise(values), |values|, Sum(values))
  {
    var xs := Sort(values, AtMost);
    SortSorts(values, AtMost);
    SortKeeps(values);
    PairwiseIsRankSum(xs);
    RankFormula(RankSum(xs, |xs|), |xs|, Sum(xs));
  }

  /** The coefficient is the sum of the differences of all ordered pairs of values, over twice their
      number times their sum: it lies between 0 and (n - 1) / n, and is 0 exactly when the load is even. */
  lemma GiniMeaning(values: seq<real>)
    requires NonNegative(values) && Sum(values) > 0.0
    ensures Gini(values) == OverTwice(Pairwise(values), |values|, Sum(values))
    ensures 0.0 <= Gini(values) <= AllButOne(|values|)
    ensures Gini(values) == 0.0 <==> AllEqual(values)
  {
    GiniIsPairwise(values);
    PairwiseQuotient(values);
    NoDifferences(values);
  }

  /** Without load the coefficient is 0. */
  lemma GiniOfNothing(values: seq<real>)
    requires values == [] || Sum(values) == 0.0
    ensures Gini(values) == 0.0
  {
    SortKeeps(values);
  }
}
