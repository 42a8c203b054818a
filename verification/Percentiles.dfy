/** `_percentiles` of arc-intel/indexer/scoring.py: tie-averaged percentile
    ranks, against counting how many values lie below. */
module Percentiles {
  import opened Lists

  // ----- the reference: counting

  function CountLess(s: seq<real>, v: real): nat {
    if |s| == 0 then 0 else CountLess(s[..|s| - 1], v) + (if s[|s| - 1] < v then 1 else 0)
  }

  function CountAtMost(s: seq<real>, v: real): nat {
    if |s| == 0 then 0 else CountAtMost(s[..|s| - 1], v) + (if s[|s| - 1] <= v then 1 else 0)
  }

  function TwiceRank(values: seq<real>, v: real): int {
    CountLess(values, v) + CountAtMost(values, v) - 1
  }

  /** The mid-rank of v among the values, scaled to [0, 1]. */
  function MidRank(values: seq<real>, v: real): real
    requires |values| > 1
  {
    TwiceRank(values, v) as real / (2 * (|values| - 1)) as real
  }

  lemma {:induction false} CountLessIsCardinality(s: seq<real>, v: real)
    ensures CountLess(s, v) == |set k | 0 <= k < |s| && s[k] < v|
  {
    if |s| > 0 {
      var n := |s| - 1;
      CountLessIsCardinality(s[..n], v);
      var below := set k | 0 <= k < n && s[..n][k] < v;
      assert (set k | 0 <= k < |s| && s[k] < v) == if s[n] < v then below + {n} else below;
    }
  }

  lemma {:induction false} CountAtMostIsCardinality(s: seq<real>, v: real)
    ensures CountAtMost(s, v) == |set k | 0 <= k < |s| && s[k] <= v|
  {
    if |s| > 0 {
      var n := |s| - 1;
      CountAtMostIsCardinality(s[..n], v);
      var upto := set k | 0 <= k < n && s[..n][k] <= v;
      assert (set k | 0 <= k < |s| && s[k] <= v) == if s[n] <= v then upto + {n} else upto;
    }
  }

  lemma {:induction false} CountBounds(s: seq<real>, v: real)
    ensures CountLess(s, v) <= CountAtMost(s, v) <= |s|
    ensures v in s ==> CountLess(s, v) < CountAtMost(s, v)
  {
    if |s| > 0 {
      assert s == s[..|s| - 1] + [s[|s| - 1]];
      CountBounds(s[..|s| - 1], v);
    }
  }

  lemma {:induction false} CountsGrow(s: seq<real>, v: real, w: real)
    requires v < w
    ensures CountAtMost(s, v) <= CountLess(s, w)
  {
    if |s| > 0 {
      CountsGrow(s[..|s| - 1], v, w);
    }
  }

  // ----- what the reference guarantees

  /** Ranks lie in [0, 1] and order values as the values order themselves. */
  lemma MidRankIsOrderIsomorphic(values: seq<real>, v: real, w: real)
    requires |values| > 1 && v in values && w in values
    ensures 0.0 <= MidRank(values, v) <= 1.0
    ensures v < w <==> MidRank(values, v) < MidRank(values, w)
  {
    MidRankInRange(values, v);
    if v < w { MidRankIncreases(values, v, w); }
    if w < v { MidRankIncreases(values, w, v); }
  }

  lemma MidRankInRange(values: seq<real>, v: real)
    requires |values| > 1 && v in values
    ensures 0.0 <= MidRank(values, v) <= 1.0
  {
    CountBounds(values, v);
    var c, d := TwiceRank(values, v), 2 * (|values| - 1);
    assert 0 <= c <= d;
    RatioInRange(c as real, d as real);
  }

  lemma RatioInRange(c: real, d: real)
    requires 0.0 <= c <= d && d > 0.0
    ensures 0.0 <= c / d <= 1.0
  {
  }

  lemma RatioIncreases(c: real, c': real, d: real)
    requires c < c' && d > 0.0
    ensures c / d < c' / d
  {
  }

  lemma MidRankIncreases(values: seq<real>, v: real, w: real)
    requires |values| > 1 && v in values && w in values && v < w
    ensures MidRank(values, v) < MidRank(values, w)
  {
    CountBounds(values, v);
    CountBounds(values, w);
    CountsGrow(values, v, w);
    RatioIncreases(TwiceRank(values, v) as real, TwiceRank(values, w) as real, (2 * (|values| - 1)) as real);
  }

  function SumLess(a: seq<real>, b: seq<real>): nat {
    if |a| == 0 then 0 else SumLess(a[..|a| - 1], b) + CountLess(b, a[|a| - 1])
  }

  function SumAtMost(a: seq<real>, b: seq<real>): nat {
    if |a| == 0 then 0 else SumAtMost(a[..|a| - 1], b) + CountAtMost(b, a[|a| - 1])
  }

  lemma {:induction false} AddOne(a: seq<real>, x: real, b: seq<real>)
    ensures SumAtMost(b, a + [x]) == SumAtMost(b, a) + (|b| - CountLess(b, x))
    ensures CountLess(b, x) <= |b|
  {
    assert (a + [x])[..|a|] == a;
    if |b| > 0 {
      AddOne(a, x, b[..|b| - 1]);
    }
  }

  /** Each pair (x, y) is counted once: y lies below x, or x is at most y. */
  lemma {:induction false} PairsCountedOnce(a: seq<real>, b: seq<real>)
    ensures SumLess(a, b) + SumAtMost(b, a) == |a| * |b|
  {
    if |a| == 0 {
      NoneAtMost(b);
    } else {
      var init, x := a[..|a| - 1], a[|a| - 1];
      assert a == init + [x];
      PairsCountedOnce(init, b);
      AddOne(init, x, b);
      assert |a| * |b| == |init| * |b| + |b|;
    }
  }

  lemma {:induction false} NoneAtMost(b: seq<real>)
    ensures SumAtMost(b, []) == 0
  {
    if |b| > 0 { NoneAtMost(b[..|b| - 1]); }
  }

  function Sum(s: seq<real>): real {
    if |s| == 0 then 0.0 else Sum(s[..|s| - 1]) + s[|s| - 1]
  }

  lemma {:induction false} SumOfMidRanks(values: seq<real>, part: seq<real>, ranks: seq<real>)
    requires |values| > 1 && |ranks| == |part|
    requires forall k :: 0 <= k < |part| ==> ranks[k] == MidRank(values, part[k])
    ensures Sum(ranks) * (2 * (|values| - 1)) as real ==
            (SumLess(part, values) + SumAtMost(part, values) - |part|) as real
  {
    hide MidRank, CountLess, CountAtMost;
    if |part| > 0 {
      var n := |part| - 1;
      SumOfMidRanks(values, part[..n], ranks[..n]);
      MidRankTimes(values, part[n]);
      Distribute(Sum(ranks[..n]), ranks[n], (2 * (|values| - 1)) as real);
    }
  }

  lemma MidRankTimes(values: seq<real>, v: real)
    requires |values| > 1
    ensures MidRank(values, v) * (2 * (|values| - 1)) as real == TwiceRank(values, v) as real
  {
    ScaledBack(TwiceRank(values, v) as real, (2 * (|values| - 1)) as real);
  }

  lemma Distribute(a: real, b: real, d: real)
    ensures (a + b) * d == a * d + b * d
  {
  }

  lemma ScaledBack(c: real, d: real)
    requires d > 0.0
    ensures c / d * d == c
  {
  }

  /** The ranks of n > 1 values sum to n / 2, ties or not. */
  lemma RanksSumToHalf(values: seq<real>, ranks: seq<real>)
    requires |values| > 1 && |ranks| == |values|
    requires forall k :: 0 <= k < |values| ==> ranks[k] == MidRank(values, values[k])
    ensures Sum(ranks) == |values| as real / 2.0
  {
    var n := |values|;
    SumOfMidRanks(values, values, ranks);
    PairsCountedOnce(values, values);
    assert Sum(ranks) * (2 * (n - 1)) as real == (n * n - n) as real;
    var d := (2 * (n - 1)) as real;
    assert n * n - n == n * (n - 1);
    HalfOf(Sum(ranks), n);
  }

  lemma HalfOf(s: real, n: nat)
    requires n > 1 && s * (2 * (n - 1)) as real == (n * (n - 1)) as real
    ensures s == n as real / 2.0
  {
    var m := (n - 1) as real;
    assert (2 * (n - 1)) as real == 2.0 * m;
    assert (n * (n - 1)) as real == n as real * m;
    assert (s * 2.0 - n as real) * m == 0.0;
  }

  // ----- the computation

  /** Sorted positions: `order` lists every index once, by increasing value. */
  ghost predicate IsOrder(values: seq<real>, order: seq<int>) {
    && |order| == |values|
    && (forall p :: 0 <= p < |order| ==> 0 <= order[p] < |values|)
    && Distinct(order)
    && (forall k :: 0 <= k < |values| ==> k in order)
    && forall p, q :: 0 <= p < q < |order| ==> values[order[p]] <= values[order[q]]
  }

  function Indices(n: nat): seq<int> {
    seq(n, i => i)
  }

  lemma {:induction false} IndicesOnce(n: nat, x: int)
    ensures multiset(Indices(n))[x] == if 0 <= x < n then 1 else 0
  {
    if n > 0 {
      assert Indices(n) == Indices(n - 1) + [n - 1];
      IndicesOnce(n - 1, x);
    }
  }

  lemma SortedIndices(values: seq<real>, key: int -> real)
    requires forall i :: 0 <= i < |values| ==> key(i) == values[i]
    ensures IsOrder(values, SortBy(Indices(|values|), key))
  {
    hide SortBy;
    var n := |values|;
    var order := SortBy(Indices(n), key);
    SortByIsSort(Indices(n), key);
    forall x ensures x in order <==> 0 <= x < n {
      IndicesOnce(n, x);
      assert x in order <==> x in multiset(order);
    }
    forall p | 0 <= p < n ensures 0 <= order[p] < n {
      assert order[p] in order;
    }
    forall p, q | 0 <= p < q < n ensures order[p] != order[q] {
      IndicesOnce(n, order[p]);
      if order[p] == order[q] { TwiceInMultiset(order, p, q); }
    }
  }

  lemma TwiceInMultiset(s: seq<int>, p: nat, q: nat)
    requires p < q < |s| && s[p] == s[q]
    ensures multiset(s)[s[p]] >= 2
  {
    assert s == s[..q] + s[q..];
    assert s[p] in s[..q] && s[q] in s[q..];
    assert multiset(s) == multiset(s[..q]) + multiset(s[q..]);
  }

  lemma {:induction false} PrefixSize(order: seq<int>, i: nat)
    requires i <= |order| && Distinct(order)
    ensures |set p | 0 <= p < i :: order[p]| == i
  {
    if i > 0 {
      PrefixSize(order, i - 1);
      var before := set p | 0 <= p < i - 1 :: order[p];
      assert (set p | 0 <= p < i :: order[p]) == before + {order[i - 1]};
    }
  }

  /** Positions i..j of a maximal tie run count the values below and not above. */
  lemma TieRunCounts(values: seq<real>, order: seq<int>, i: nat, j: nat)
    requires IsOrder(values, order) && i <= j < |order|
    requires i > 0 ==> values[order[i - 1]] < values[order[i]]
    requires values[order[j]] == values[order[i]]
    requires j + 1 < |order| ==> values[order[j + 1]] != values[order[i]]
    ensures CountLess(values, values[order[i]]) == i && CountAtMost(values, values[order[i]]) == j + 1
  {
    var v := values[order[i]];
    hide CountLess, CountAtMost;
    CountLessIsCardinality(values, v);
    CountAtMostIsCardinality(values, v);
    PrefixSize(order, i);
    PrefixSize(order, j + 1);
    PrefixIs(values, order, i, set k | 0 <= k < |values| && values[k] < v);
    PrefixIs(values, order, j + 1, set k | 0 <= k < |values| && values[k] <= v);
  }

  /** A set of indices that holds exactly the first i positions is their image. */
  lemma PrefixIs(values: seq<real>, order: seq<int>, i: nat, s: set<int>)
    requires IsOrder(values, order) && i <= |order|
    requires forall k :: k in s ==> 0 <= k < |values|
    requires forall p :: 0 <= p < |order| ==> (order[p] in s <==> p < i)
    ensures s == set p | 0 <= p < i :: order[p]
  {
    forall k | k in s ensures k in (set p | 0 <= p < i :: order[p]) {
      assert k in order;
      var p :| 0 <= p < |order| && order[p] == k;
    }
  }

  /** A tie run starts at position i. */
  predicate RunStarts(values: seq<real>, order: seq<int>, i: nat)
    requires |order| == |values| && forall p :: 0 <= p < |order| ==> 0 <= order[p] < |values|
  {
    0 < i < |values| ==> values[order[i - 1]] < values[order[i]]
  }

  /** The first i positions have their ranks. */
  predicate RankedUpto(values: seq<real>, order: seq<int>, ranks: seq<real>, i: nat)
    requires |ranks| == |order| == |values| && forall p :: 0 <= p < |order| ==> 0 <= order[p] < |values|
  {
    i <= |order| && forall p :: 0 <= p < i ==> ranks[order[p]] == RankOf(values, order[p])
  }

  lemma RunRanked(values: seq<real>, order: seq<int>, before: seq<real>, after: seq<real>, i: nat, j: nat)
    requires IsOrder(values, order) && |before| == |after| == |order| == |values| && i <= j < |order|
    requires RunStarts(values, order, i) && RankedUpto(values, order, before, i)
    requires forall p :: i <= p <= j ==> values[order[p]] == values[order[i]]
    requires j + 1 < |order| ==> values[order[j]] < values[order[j + 1]]
    requires forall p :: 0 <= p < |order| ==> after[order[p]] == if i <= p <= j then RunRank(i, j, |values|) else before[order[p]]
    ensures RunStarts(values, order, j + 1) && RankedUpto(values, order, after, j + 1)
  {
    hide MidRank, RankOf, RunRank, CountLess, CountAtMost;
    TieRunCounts(values, order, i, j);
    TieRunRank(values, order, i, j);
  }

  lemma OrderIs(values: seq<real>, order: seq<int>)
    requires IsOrder(values, order)
    ensures |order| == |values| && Distinct(order) && forall p :: 0 <= p < |order| ==> 0 <= order[p] < |values|
    ensures RunStarts(values, order, 0)
    ensures forall ranks: seq<real> :: |ranks| == |order| ==> RankedUpto(values, order, ranks, 0)
  {
  }

  method Percentiles(values: seq<real>) returns (ranks: array<real>)
    ensures fresh(ranks) && ranks.Length == |values|
    ensures |values| == 1 ==> ranks[0] == 1.0
    ensures |values| > 1 ==> forall k :: 0 <= k < |values| ==> ranks[k] == MidRank(values, values[k])
  {
    var n := |values|;
    var key := (i: int) => if 0 <= i < n then values[i] else 0.0;
    var order := SortBy(Indices(n), key);
    SortedIndices(values, key);
    OrderIs(values, order);
    hide SortBy, MidRank, RankOf, RunRank, IsOrder, Distinct, RunStarts, RankedUpto;
    ranks := new real[n](_ => 0.0);
    var i := 0;
    while i < n
      invariant 0 <= i <= n && RunStarts(values, order, i) && RankedUpto(values, order, ranks[..], i)
    {
      var j := RunEnd(values, order, i);
      var pr := RunRank(i, j, n);
      ghost var before := ranks[..];
      FillRun(ranks, order, i, j, pr);
      RunRanked(values, order, before, ranks[..], i, j);
      i := j + 1;
    }
    EveryRank(values, order, ranks[..]);
    RankIs(values);
  }

  lemma EveryRank(values: seq<real>, order: seq<int>, ranks: seq<real>)
    requires IsOrder(values, order) && |ranks| == |values| == |order|
    requires RankedUpto(values, order, ranks, |order|)
    ensures forall k :: 0 <= k < |values| ==> ranks[k] == RankOf(values, k)
  {
    hide RankOf;
    forall k | 0 <= k < |values| ensures ranks[k] == RankOf(values, k) {
      assert k in order;
      var p :| 0 <= p < |order| && order[p] == k;
    }
  }

  lemma RankIs(values: seq<real>)
    ensures forall k :: 0 <= k < |values| ==>
      RankOf(values, k) == if |values| == 1 then 1.0 else MidRank(values, values[k])
  {
  }

  /** `avg / (n - 1)` with `avg = (i + j) / 2`, or 1 for a single value. */
  function RunRank(i: nat, j: nat, n: nat): real {
    var avg := (i + j) as real / 2.0;
    if n > 1 then avg / (n - 1) as real else 1.0
  }

  /** The first inner loop: the last position of the tie run that starts at i. */
  method RunEnd(values: seq<real>, order: seq<int>, i: nat) returns (j: nat)
    requires IsOrder(values, order) && i < |order|
    ensures i <= j < |order|
    ensures forall p :: i <= p <= j ==> values[order[p]] == values[order[i]]
    ensures j + 1 < |order| ==> values[order[j]] < values[order[j + 1]]
  {
    j := i;
    while j + 1 < |order| && values[order[j + 1]] == values[order[i]]
      invariant i <= j < |order|
      invariant forall p :: i <= p <= j ==> values[order[p]] == values[order[i]]
    {
      j := j + 1;
    }
  }

  /** The second inner loop: one rank for the whole tie run. */
  method FillRun(ranks: array<real>, order: seq<int>, i: nat, j: nat, pr: real)
    requires |order| == ranks.Length && i <= j < |order| && Distinct(order)
    requires forall p :: 0 <= p < |order| ==> 0 <= order[p] < |order|
    modifies ranks
    ensures forall p :: 0 <= p < |order| ==> ranks[order[p]] == if i <= p <= j then pr else old(ranks[order[p]])
  {
    for k := i to j + 1
      invariant forall p :: 0 <= p < |order| ==> ranks[order[p]] == if i <= p < k then pr else old(ranks[order[p]])
    {
      ranks[order[k]] := pr;
    }
  }

  /** The rank of the value at index k. */
  function RankOf(values: seq<real>, k: int): real
    requires 0 <= k < |values|
  {
    if |values| == 1 then 1.0 else MidRank(values, values[k])
  }

  lemma TieRunRank(values: seq<real>, order: seq<int>, i: nat, j: nat)
    requires i <= j < |order| == |values| && forall p :: 0 <= p < |order| ==> 0 <= order[p] < |values|
    requires forall p :: i <= p <= j ==> values[order[p]] == values[order[i]]
    requires CountLess(values, values[order[i]]) == i && CountAtMost(values, values[order[i]]) == j + 1
    ensures forall p :: i <= p <= j ==> RankOf(values, order[p]) == RunRank(i, j, |values|)
  {
    if |values| > 1 {
      HalfRatio((i + j) as real, (|values| - 1) as real);
      assert (2 * (|values| - 1)) as real == 2.0 * (|values| - 1) as real;
    }
  }

  lemma HalfRatio(c: real, m: real)
    requires m > 0.0
    ensures c / 2.0 / m == c / (2.0 * m)
  {
    assert c / 2.0 / m * (2.0 * m) == c / 2.0 / m * m * 2.0 == c;
  }
}
