/** Per-bucket series of arc-intel/indexer/stream_alerts.py: dicts from bucket
    number to amount, pruned to their newest buckets, and what is read off them. */
module Series {
  import opened Options
  import opened Lists

  type Bucketed = map<int, real>

  // ----- pruning

  function Above(m: Bucketed, b: int): set<int> {
    set k | k in m && k > b
  }

  /** The `keep` newest buckets; all of them when `keep` is 0, as `xs[:-0]` is empty. */
  function Newest(m: Bucketed, keep: nat): Bucketed {
    if keep == 0 then m else map b | b in m && |Above(m, b)| < keep :: m[b]
  }

  lemma SubsetSize(s: set<int>, t: set<int>)
    requires s <= t
    ensures |s| <= |t|
  {
    assert t == s + (t - s);
  }

  /** A kept bucket has the same newer buckets before and after pruning. */
  lemma NewestKeepsAbove(m: Bucketed, keep: nat, b: int)
    requires b in Newest(m, keep)
    ensures Above(Newest(m, keep), b) == Above(m, b)
  {
    forall k | k in Above(m, b) ensures k in Newest(m, keep) {
      assert Above(m, k) <= Above(m, b);
      SubsetSize(Above(m, k), Above(m, b));
    }
  }

  /** Newer buckets of a kept bucket are kept. */
  lemma NewestIsUpward(m: Bucketed, keep: nat, b: int, c: int)
    requires b in Newest(m, keep) && c in m && c >= b
    ensures c in Newest(m, keep)
  {
    assert Above(m, c) <= Above(m, b);
    SubsetSize(Above(m, c), Above(m, b));
  }

  function At(m: Bucketed, b: int): real {
    if b in m then m[b] else 0.0
  }

  /** `m[b] = m.get(b, 0.0) + v`. */
  function Bump(m: Bucketed, b: int, v: real): Bucketed {
    m[b := At(m, b) + v]
  }

  predicate Upto(m: Bucketed, b: int) {
    forall k :: k in m ==> k <= b
  }

  /** Writing the newest bucket and pruning gives the same cache as pruning the
      written history, whatever value is written. */
  lemma PruneAfterWrite(m: Bucketed, keep: nat, b: int, v: real)
    requires Upto(m, b)
    ensures Newest(Newest(m, keep)[b := v], keep) == Newest(m[b := v], keep)
  {
    if keep > 0 {
      var p := Newest(m, keep);
      var pw, mw := p[b := v], m[b := v];
      forall c ensures c in Newest(pw, keep) <==> c in Newest(mw, keep) {
        if c in p {
          NewestKeepsAbove(m, keep, c);
          AboveAfterWrite(m, b, v, c);
          AboveAfterWrite(p, b, v, c);
          if b in m && c < b { NewestIsUpward(m, keep, c, b); }
        } else if c in m && c != b {
          AboveAfterWrite(m, b, v, c);
          SubsetSize(Above(m, c), Above(mw, c));
        }
        if c == b { assert Above(pw, b) == {} && Above(mw, b) == {}; }
      }
    }
  }

  lemma AboveAfterWrite(m: Bucketed, b: int, v: real, c: int)
    ensures Above(m[b := v], c) == if c < b then Above(m, c) + {b} else Above(m, c)
  {
  }

  /** The newest bucket survives pruning with its value. */
  lemma NewestKeepsLast(m: Bucketed, keep: nat, b: int)
    requires Upto(m, b)
    ensures At(Newest(m, keep), b) == At(m, b)
  {
    assert Above(m, b) == {};
  }

  // ----- the sorted list of a pruned series

  lemma {:induction false} ElementsSize(r: seq<int>)
    requires Ascending(r)
    ensures |Elements(r)| == |r|
  {
    AscendingIsSorted(r);
  }

  /** The buckets above position i of the sorted list are the ones after it. */
  lemma AbovePosition(m: Bucketed, i: nat)
    requires i < |m|
    ensures |Sorted(m.Keys)| == |m| && |Above(m, Sorted(m.Keys)[i])| == |m| - 1 - i
  {
    var ks := Sorted(m.Keys);
    SortedIsAscending(m.Keys);
    assert |m.Keys| == |m|;
    var rest := ks[i + 1..];
    AscendingSuffix(ks, i + 1);
    ElementsSize(rest);
    hide Sorted;
    forall k | k in Above(m, ks[i]) ensures k in Elements(rest) {
      assert k in ks;
      var j :| 0 <= j < |ks| && ks[j] == k;
      assert rest[j - i - 1] == k;
    }
    forall j | 0 <= j < |rest| ensures rest[j] in Above(m, ks[i]) {
      assert ks[j + i + 1] in ks;
    }
    assert Above(m, ks[i]) == Elements(rest);
  }

  lemma AscendingSuffix(r: seq<int>, i: nat)
    requires Ascending(r) && i <= |r|
    ensures Ascending(r[i..])
  {
  }

  /** How many of the oldest buckets pruning drops. */
  function Dropped(m: Bucketed, keep: nat): nat {
    if keep == 0 || |m| <= keep then 0 else |m| - keep
  }

  lemma DroppedSize(m: Bucketed, keep: nat)
    ensures Dropped(m, keep) <= |m| == |Sorted(m.Keys)|
    ensures Dropped(m, keep) > 0 ==> keep > 0 && |m| - Dropped(m, keep) == keep
  {
    assert |m.Keys| == |m|;
  }

  lemma KeptPosition(m: Bucketed, keep: nat, i: nat)
    requires i < |m|
    ensures |Sorted(m.Keys)| == |m| && (Sorted(m.Keys)[i] in Newest(m, keep) <==> i >= Dropped(m, keep))
  {
    AbovePosition(m, i);
    SortedIsAscending(m.Keys);
    assert Sorted(m.Keys)[i] in Sorted(m.Keys);
  }

  /** Pruning keeps a suffix of the sorted list. */
  lemma NewestIsSuffix(m: Bucketed, keep: nat)
    ensures |Sorted(m.Keys)| == |m|
    ensures Sorted(Newest(m, keep).Keys) == Sorted(m.Keys)[Dropped(m, keep)..]
  {
    hide Sorted, Dropped;
    var d, ks := Dropped(m, keep), Sorted(m.Keys);
    DroppedSize(m, keep);
    SortedIsAscending(m.Keys);
    AscendingSuffix(ks, d);
    AscendingIsSorted(ks[d..]);
    KeptAreTail(m, keep);
    TailIsKept(m, keep);
    assert Newest(m, keep).Keys == Elements(ks[d..]);
  }

  lemma KeptAreTail(m: Bucketed, keep: nat)
    ensures Dropped(m, keep) <= |Sorted(m.Keys)|
    ensures forall b :: b in Newest(m, keep) ==> b in Elements(Sorted(m.Keys)[Dropped(m, keep)..])
  {
    hide Sorted, Newest, Dropped;
    DroppedSize(m, keep);
    SortedIsAscending(m.Keys);
    NewestSubset(m, keep);
    var d, ks := Dropped(m, keep), Sorted(m.Keys);
    var tail := ks[d..];
    forall b | b in Newest(m, keep) ensures b in Elements(tail) {
      assert b in ks;
      var i :| 0 <= i < |ks| && ks[i] == b;
      KeptPosition(m, keep, i);
      assert tail[i - d] == b;
    }
  }

  lemma TailIsKept(m: Bucketed, keep: nat)
    ensures Dropped(m, keep) <= |Sorted(m.Keys)|
    ensures forall b :: b in Elements(Sorted(m.Keys)[Dropped(m, keep)..]) ==> b in Newest(m, keep)
  {
    hide Sorted, Newest, Dropped;
    DroppedSize(m, keep);
    var d, ks := Dropped(m, keep), Sorted(m.Keys);
    var tail := ks[d..];
    forall j | 0 <= j < |tail| ensures tail[j] in Newest(m, keep) {
      KeptPosition(m, keep, j + d);
    }
  }

  lemma NewestSubset(m: Bucketed, keep: nat)
    ensures forall b :: b in Newest(m, keep) ==> b in m && Newest(m, keep)[b] == m[b]
  {
  }

  // ----- sums over recent buckets

  /** Sum of the amounts at buckets from `lo` on, along a list of keys. */
  function SumAlong(m: Bucketed, ks: seq<int>, lo: int): real {
    if |ks| == 0 then 0.0
    else SumAlong(m, ks[..|ks| - 1], lo) + (if ks[|ks| - 1] >= lo then At(m, ks[|ks| - 1]) else 0.0)
  }

  /** `sum(v for b, v in m.items() if b >= lo)`. */
  function SumFrom(m: Bucketed, lo: int): real {
    SumAlong(m, Sorted(m.Keys), lo)
  }

  lemma {:induction false} SumAlongConcat(m: Bucketed, p: seq<int>, q: seq<int>, lo: int)
    ensures SumAlong(m, p + q, lo) == SumAlong(m, p, lo) + SumAlong(m, q, lo)
  {
    if |q| == 0 {
      assert p + q == p;
    } else {
      assert (p + q)[..|p + q| - 1] == p + q[..|q| - 1];
      SumAlongConcat(m, p, q[..|q| - 1], lo);
    }
  }

  lemma {:induction false} SumOfOld(m: Bucketed, ks: seq<int>, lo: int)
    requires forall i :: 0 <= i < |ks| ==> ks[i] < lo
    ensures SumAlong(m, ks, lo) == 0.0
  {
    if |ks| > 0 { SumOfOld(m, ks[..|ks| - 1], lo); }
  }

  lemma {:induction false} SumAgrees(m: Bucketed, p: Bucketed, ks: seq<int>, lo: int)
    requires forall i :: 0 <= i < |ks| ==> At(p, ks[i]) == At(m, ks[i])
    ensures SumAlong(p, ks, lo) == SumAlong(m, ks, lo)
  {
    if |ks| > 0 { SumAgrees(m, p, ks[..|ks| - 1], lo); }
  }

  /** Distinct ascending integers are at least their distance apart. */
  lemma {:induction false} AscendingGap(r: seq<int>, i: nat, j: nat)
    requires Ascending(r) && i <= j < |r|
    ensures r[j] - r[i] >= j - i
    decreases j
  {
    if i < j { AscendingGap(r, i, j - 1); }
  }

  /** The oldest kept bucket is less than `keep` older than the newest. */
  lemma FirstKept(m: Bucketed, keep: nat, b: int)
    requires Upto(m, b) && Dropped(m, keep) > 0
    ensures Dropped(m, keep) < |Sorted(m.Keys)| && Sorted(m.Keys)[Dropped(m, keep)] <= b - keep + 1
  {
    DroppedSize(m, keep);
    SortedIsAscending(m.Keys);
    var ks := Sorted(m.Keys);
    AscendingGap(ks, Dropped(m, keep), |ks| - 1);
    assert ks[|ks| - 1] in ks;
  }

  /** The dropped buckets are at least `keep` older than the newest. */
  lemma DroppedAreOld(m: Bucketed, keep: nat, b: int, i: nat)
    requires Upto(m, b) && i < Dropped(m, keep)
    ensures keep > 0 && |Sorted(m.Keys)| == |m| && Sorted(m.Keys)[i] <= b - keep
  {
    assert |m.Keys| == |m|;
    SortedIsAscending(m.Keys);
    var ks := Sorted(m.Keys);
    AscendingGap(ks, i, |ks| - 1);
    assert ks[|ks| - 1] in ks;
  }

  lemma NewestValues(m: Bucketed, keep: nat)
    ensures var tail := Sorted(Newest(m, keep).Keys);
            forall i :: 0 <= i < |tail| ==> tail[i] in Newest(m, keep) && At(Newest(m, keep), tail[i]) == At(m, tail[i])
  {
    SortedIsAscending(Newest(m, keep).Keys);
    NewestSubset(m, keep);
    hide Newest;
    var tail := Sorted(Newest(m, keep).Keys);
    forall i | 0 <= i < |tail| ensures tail[i] in Newest(m, keep) { assert tail[i] in tail; }
  }

  /** A cache of at least w buckets has the same sum over the last w. */
  lemma RecentSumSurvives(m: Bucketed, keep: nat, b: int, w: nat)
    requires Upto(m, b) && (keep == 0 || keep >= w)
    ensures SumFrom(Newest(m, keep), b - w + 1) == SumFrom(m, b - w + 1)
  {
    hide Sorted, Newest, Dropped, SumAlong;
    var lo := b - w + 1;
    var ks, d := Sorted(m.Keys), Dropped(m, keep);
    NewestIsSuffix(m, keep);
    NewestValues(m, keep);
    DroppedSize(m, keep);
    forall i | 0 <= i < d ensures ks[i] < lo { DroppedAreOld(m, keep, b, i); }
    forall i | 0 <= i < |ks[d..]| ensures At(Newest(m, keep), ks[d..][i]) == At(m, ks[d..][i]) {}
    assert ks == ks[..d] + ks[d..];
    SumAlongConcat(m, ks[..d], ks[d..], lo);
    SumOfOld(m, ks[..d], lo);
    SumAgrees(m, Newest(m, keep), ks[d..], lo);
  }

  // ----- z-scores

  function Total(vals: seq<real>): real {
    if |vals| == 0 then 0.0 else Total(vals[..|vals| - 1]) + vals[|vals| - 1]
  }

  function SquaresAround(vals: seq<real>, m: real): real {
    if |vals| == 0 then 0.0
    else SquaresAround(vals[..|vals| - 1], m) + (vals[|vals| - 1] - m) * (vals[|vals| - 1] - m)
  }

  function Mean(window: seq<real>): real
    requires |window| > 0
  {
    Total(window) / |window| as real
  }

  function Deviation(window: seq<real>, sqrt: real -> real): real
    requires |window| > 0
  {
    sqrt(SquaresAround(window, Mean(window)) / |window| as real)
  }

  /** The z-score of v against a window; none with fewer than three values. */
  function ZScore(window: seq<real>, v: real, sqrt: real -> real): Option<real> {
    if |window| < 3 then None
    else
      var sd := Deviation(window, sqrt);
      Some(if sd == 0.0 then 0.0 else (v - Mean(window)) / sd)
  }

  function Values(m: Bucketed, ks: seq<int>): seq<real> {
    seq(|ks|, i requires 0 <= i < |ks| => At(m, ks[i]))
  }

  function WindowStart(i: nat, lookback: nat): nat {
    if i >= lookback then i - lookback else 0
  }

  /** The z-score of the last value against the `lookback` values before it. */
  function ScoreOfLast(vals: seq<real>, lookback: nat, sqrt: real -> real): Option<real> {
    if |vals| == 0 then None
    else
      var i := |vals| - 1;
      ZScore(vals[WindowStart(i, lookback)..i], vals[i], sqrt)
  }

  /** The z-score of the newest bucket against the `lookback` buckets before it. */
  function LastZ(m: Bucketed, lookback: nat, sqrt: real -> real): Option<real> {
    ScoreOfLast(Values(m, Sorted(m.Keys)), lookback, sqrt)
  }

  /** `rolling_zscore`. */
  method RollingZscore(series: seq<(int, real)>, lookback: nat, sqrt: real -> real)
    returns (out: seq<(int, Option<real>)>)
    ensures |out| == |series|
    ensures var vals := seq(|series|, i requires 0 <= i < |series| => series[i].1);
            forall i :: 0 <= i < |series| ==>
              out[i] == (series[i].0, ZScore(vals[if i > lookback then i - lookback else 0..i], vals[i], sqrt))
  {
    var vals := seq(|series|, i requires 0 <= i < |series| => series[i].1);
    out := [];
    for i := 0 to |series|
      invariant |out| == i
      invariant forall j :: 0 <= j < i ==>
        out[j] == (series[j].0, ZScore(vals[WindowStart(j, lookback)..j], vals[j], sqrt))
    {
      var window := vals[WindowStart(i, lookback)..i];
      out := out + [(series[i].0, ZScore(window, vals[i], sqrt))];
    }
  }

  /** A cache of more than `lookback` buckets has the z-score of the full history. */
  lemma LastZSurvives(m: Bucketed, keep: nat, lookback: nat, sqrt: real -> real)
    requires keep == 0 || keep > lookback
    ensures LastZ(Newest(m, keep), lookback, sqrt) == LastZ(m, lookback, sqrt)
  {
    NewestIsSuffix(m, keep);
    KeptValues(m, keep);
    hide Sorted, Newest, ScoreOfLast, Values;
    SuffixScore(Values(m, Sorted(m.Keys)), Dropped(m, keep), lookback, sqrt);
  }

  lemma KeptValues(m: Bucketed, keep: nat)
    ensures var ks, d := Sorted(m.Keys), Dropped(m, keep);
            d <= |ks| && Values(Newest(m, keep), ks[d..]) == Values(m, ks)[d..] && |Values(m, ks)| == |ks|
  {
    NewestIsSuffix(m, keep);
    NewestValues(m, keep);
    DroppedSize(m, keep);
    hide Sorted, Newest, Dropped;
    var ks, d := Sorted(m.Keys), Dropped(m, keep);
    assert Values(Newest(m, keep), ks[d..]) == Values(m, ks)[d..];
  }

  /** Earlier values than those of the window do not matter. */
  lemma SuffixScore(vals: seq<real>, d: nat, lookback: nat, sqrt: real -> real)
    requires d <= |vals| && (d > 0 ==> |vals| - d > lookback)
    ensures ScoreOfLast(vals[d..], lookback, sqrt) == ScoreOfLast(vals, lookback, sqrt)
  {
    hide ZScore;
    var tail := vals[d..];
    if |tail| > 0 {
      var i := |tail| - 1;
      assert tail[WindowStart(i, lookback)..i] == vals[WindowStart(i + d, lookback)..i + d];
    }
  }

  // ----- the price some buckets ago

  function LastAlong(m: Bucketed, ks: seq<int>, at: int): Option<real> {
    if |ks| == 0 then None
    else if ks[|ks| - 1] <= at then Some(At(m, ks[|ks| - 1]))
    else LastAlong(m, ks[..|ks| - 1], at)
  }

  /** `m[max(past)]` for `past = [b for b in m if b <= at]`. */
  function PastValue(m: Bucketed, at: int): Option<real> {
    LastAlong(m, Sorted(m.Keys), at)
  }

  lemma {:induction false} LastAlongSuffix(m: Bucketed, p: Bucketed, ks: seq<int>, d: nat, at: int)
    requires Ascending(ks) && d < |ks| && ks[d] <= at
    requires forall i :: d <= i < |ks| ==> At(p, ks[i]) == At(m, ks[i])
    ensures LastAlong(p, ks[d..], at) == LastAlong(m, ks, at)
  {
    var n := |ks| - 1;
    if ks[n] > at {
      assert ks[d..][..|ks[d..]| - 1] == ks[..n][d..];
      LastAlongSuffix(m, p, ks[..n], d, at);
    }
  }

  lemma {:induction false} LastAlongAgrees(m: Bucketed, p: Bucketed, ks: seq<int>, at: int)
    requires forall i :: 0 <= i < |ks| ==> At(p, ks[i]) == At(m, ks[i])
    ensures LastAlong(p, ks, at) == LastAlong(m, ks, at)
  {
    if |ks| > 0 { LastAlongAgrees(m, p, ks[..|ks| - 1], at); }
  }

  /** A cache of more than w buckets has the same newest value at least w buckets ago. */
  lemma PastValueSurvives(m: Bucketed, keep: nat, b: int, w: nat)
    requires Upto(m, b) && (keep == 0 || keep > w)
    ensures PastValue(Newest(m, keep), b - w) == PastValue(m, b - w)
  {
    hide Sorted, Newest, Dropped, LastAlong;
    var ks, d := Sorted(m.Keys), Dropped(m, keep);
    SortedIsAscending(m.Keys);
    NewestIsSuffix(m, keep);
    NewestValues(m, keep);
    DroppedSize(m, keep);
    var p := Newest(m, keep);
    if d == 0 {
      assert ks[d..] == ks;
      LastAlongAgrees(m, p, ks, b - w);
    } else {
      FirstKept(m, keep, b);
      forall i | d <= i < |ks| ensures At(p, ks[i]) == At(m, ks[i]) { assert ks[d..][i - d] == ks[i]; }
      LastAlongSuffix(m, p, ks, d, b - w);
    }
  }
}
