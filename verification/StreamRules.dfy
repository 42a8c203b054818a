/** What the alert rules report, said of the legs themselves: sums over legs, last prices, books of the creator. */
module StreamRules {
  import opened Options
  import opened Lists
  import opened Reals
  import opened Text
  import opened Series
  import opened StreamAlerts
  import opened StreamHistory
  import opened StreamRefinement
  import opened ZScores
  import Pnl

  /** A leg's price makes its quantity worth its value; without a quantity it has none. */
  lemma PriceIs(leg: Leg)
    ensures if leg.qty > 0.0 then leg.qty * leg.Price() == leg.sv else leg.Price() == 0.0
  {
    if leg.qty > 0.0 { assert leg.sv / leg.qty * leg.qty == leg.sv; }
  }

  // ----- sums over legs

  predicate Counts(p: Params, leg: Leg, t: string, side: Option<Side>, lo: int)
    requires p.Ok()
  {
    leg.Token() == t && (side == None || side == Some(leg.side)) && leg.Bucket(p) >= lo
  }

  /** Value of the token's legs of a side (all when None) from bucket `lo` on. */
  function ValueSince(p: Params, legs: seq<Leg>, t: string, side: Option<Side>, lo: int): real
    requires p.Ok()
  {
    if |legs| == 0 then 0.0
    else
      ValueSince(p, legs[..|legs| - 1], t, side, lo)
      + (if Counts(p, legs[|legs| - 1], t, side, lo) then legs[|legs| - 1].sv else 0.0)
  }

  /** Sorted keys when the newest bucket is written. */
  lemma SortedWrite(m: Bucketed, b: int, v: real)
    requires Upto(m, b)
    ensures Sorted(m[b := v].Keys) == Sorted(m.Keys - {b}) + [b]
  {
    var ks := Sorted(m.Keys - {b});
    SortedIsAscending(m.Keys - {b});
    hide Sorted;
    var more := ks + [b];
    forall i | 0 <= i < |ks| ensures ks[i] < b { assert ks[i] in ks; }
    assert Ascending(more);
    AscendingIsSorted(more);
    assert Elements(more) == m[b := v].Keys by {
      forall x ensures x in Elements(more) <==> x in m[b := v].Keys {
        assert x in Elements(more) <==> x in more;
        assert x in more <==> x in ks || x == b;
      }
    }
  }

  lemma SortedRest(m: Bucketed, b: int)
    requires Upto(m, b)
    ensures Sorted(m.Keys) == if b in m then Sorted(m.Keys - {b}) + [b] else Sorted(m.Keys - {b})
  {
    if b in m {
      SortedWrite(m, b, m[b]);
      assert m[b := m[b]] == m;
    } else {
      assert m.Keys - {b} == m.Keys;
    }
  }

  lemma SumAlongMore(m: Bucketed, ks: seq<int>, k: int, lo: int)
    ensures SumAlong(m, ks + [k], lo) == SumAlong(m, ks, lo) + (if k >= lo then At(m, k) else 0.0)
  {
    assert (ks + [k])[..|ks|] == ks;
  }

  /** Buckets but the written one keep their values. */
  lemma RestKept(m: Bucketed, b: int, v: real)
    ensures var rest := Sorted(m.Keys - {b});
            forall i :: 0 <= i < |rest| ==> At(m, rest[i]) == At(m[b := v], rest[i])
  {
    var rest := Sorted(m.Keys - {b});
    SortedIsAscending(m.Keys - {b});
    hide Sorted;
    forall i | 0 <= i < |rest| ensures At(m, rest[i]) == At(m[b := v], rest[i]) { assert rest[i] in rest; }
  }

  lemma SumSplits(m: Bucketed, b: int, lo: int)
    requires Upto(m, b)
    ensures SumFrom(m, lo) == SumAlong(m, Sorted(m.Keys - {b}), lo) + (if b >= lo then At(m, b) else 0.0)
  {
    SortedRest(m, b);
    hide Sorted, SumAlong;
    if b in m { SumAlongMore(m, Sorted(m.Keys - {b}), b, lo); }
  }

  /** Adding to the newest bucket adds to every sum that reaches it. */
  lemma SumBump(m: Bucketed, b: int, v: real, lo: int)
    requires Upto(m, b)
    ensures SumFrom(Bump(m, b, v), lo) == SumFrom(m, lo) + (if b >= lo then v else 0.0)
  {
    var m' := Bump(m, b, v);
    assert m'.Keys - {b} == m.Keys - {b};
    SumSplits(m, b, lo);
    SumSplits(m', b, lo);
    RestKept(m, b, At(m, b) + v);
    hide Sorted, SumAlong, SumFrom;
    Series.SumAgrees(m, m', Sorted(m.Keys - {b}), lo);
  }

  /** The seven-bucket sums are sums of leg values. */
  lemma {:induction false} TradedIsValue(p: Params, legs: seq<Leg>, t: string, side: Option<Side>, lo: int)
    requires p.Ok() && Ordered(legs)
    ensures SumFrom(Traded(p, legs, t, side), lo) == ValueSince(p, legs, t, side, lo)
  {
    if |legs| == 0 {
      NothingSummed(lo);
    } else {
      var before, leg := legs[..|legs| - 1], legs[|legs| - 1];
      assert Ordered(before);
      TradedIsValue(p, before, t, side, lo);
      BeforeLast(p, legs);
      HistoryUpto(p, before, t, side, leg.Bucket(p));
      SumBump(Traded(p, before, t, side), leg.Bucket(p), leg.sv, lo);
      hide Leg.Token, Leg.Bucket, SumFrom, Bump, Ordered, Upto;
    }
  }

  lemma NothingSummed(lo: int)
    ensures SumFrom(map[], lo) == 0.0
  {
    var m: Bucketed := map[];
    assert m.Keys == {};
  }

  // ----- last prices

  predicate Prices(p: Params, leg: Leg, t: string, b: int)
    requires p.Ok()
  {
    leg.Token() == t && leg.Price() > 0.0 && leg.Bucket(p) <= b
  }

  /** Price of the token's last priced leg in bucket b or before. */
  function LastPrice(p: Params, legs: seq<Leg>, t: string, b: int): Option<real>
    requires p.Ok()
  {
    if |legs| == 0 then None
    else if Prices(p, legs[|legs| - 1], t, b) then Some(legs[|legs| - 1].Price())
    else LastPrice(p, legs[..|legs| - 1], t, b)
  }

  lemma LastAlongMore(m: Bucketed, ks: seq<int>, k: int, at: int)
    ensures LastAlong(m, ks + [k], at) == if k <= at then Some(At(m, k)) else LastAlong(m, ks, at)
  {
    assert (ks + [k])[..|ks|] == ks;
  }

  lemma {:induction false} LastAlongSame(m: Bucketed, m': Bucketed, ks: seq<int>, at: int)
    requires forall i :: 0 <= i < |ks| ==> At(m, ks[i]) == At(m', ks[i])
    ensures LastAlong(m, ks, at) == LastAlong(m', ks, at)
  {
    if |ks| > 0 { LastAlongSame(m, m', ks[..|ks| - 1], at); }
  }

  lemma PastWrite(m: Bucketed, b: int, v: real, at: int)
    requires Upto(m, b)
    ensures PastValue(m[b := v], at) == if b <= at then Some(v) else PastValue(m, at)
  {
    var rest, m' := Sorted(m.Keys - {b}), m[b := v];
    SortedWrite(m, b, v);
    SortedRest(m, b);
    RestKept(m, b, v);
    hide Sorted, LastAlong;
    LastAlongSame(m, m', rest, at);
    LastAlongMore(m', rest, b, at);
    LastAlongMore(m, rest, b, at);
  }

  /** The look-back price is that of the last leg so long ago. */
  lemma {:induction false} PricedIsLast(p: Params, legs: seq<Leg>, t: string, at: int)
    requires p.Ok() && Ordered(legs)
    ensures PastValue(Priced(p, legs, t), at) == LastPrice(p, legs, t, at)
  {
    if |legs| == 0 {
      NothingPriced(at);
    } else {
      var before, leg := legs[..|legs| - 1], legs[|legs| - 1];
      assert Ordered(before);
      PricedIsLast(p, before, t, at);
      BeforeLast(p, legs);
      HistoryUpto(p, before, t, None, leg.Bucket(p));
      PastWrite(Priced(p, before, t), leg.Bucket(p), leg.Price(), at);
      hide Leg.Token, Leg.Bucket, Leg.Price, PastValue, Ordered, Upto;
    }
  }

  lemma NothingPriced(at: int)
    ensures PastValue(map[], at) == None
  {
    var m: Bucketed := map[];
    assert m.Keys == {};
  }

  /** Price of the token's last priced leg within bucket b, 0 when there is none. */
  function PriceIn(p: Params, legs: seq<Leg>, t: string, b: int): real
    requires p.Ok()
  {
    if |legs| == 0 then 0.0
    else if Prices(p, legs[|legs| - 1], t, b) && legs[|legs| - 1].Bucket(p) == b then legs[|legs| - 1].Price()
    else PriceIn(p, legs[..|legs| - 1], t, b)
  }

  lemma {:induction false} PricedAt(p: Params, legs: seq<Leg>, t: string, b: int)
    requires p.Ok()
    ensures At(Priced(p, legs, t), b) == PriceIn(p, legs, t, b)
  {
    if |legs| > 0 {
      PricedAt(p, legs[..|legs| - 1], t, b);
      hide Leg.Token, Leg.Bucket, Leg.Price;
    }
  }

  /** cur is at least `pct` percent above was. */
  predicate UpBy(cur: real, was: real, pct: real) {
    cur * 100.0 >= was * (100.0 + pct)
  }

  lemma PercentIs(cur: real, was: real, pct: real)
    requires was > 0.0
    ensures (cur / was - 1.0) * 100.0 >= pct <==> UpBy(cur, was, pct)
  {
    var q := cur / was;
    assert q * was == cur;
    Scale(was, (q - 1.0) * 100.0, pct);
    assert was * ((q - 1.0) * 100.0) == (cur - was) * 100.0;
  }

  lemma Scale(k: real, x: real, y: real)
    requires k > 0.0
    ensures x >= y <==> k * x >= k * y
  {
    if x >= y { assert k * (x - y) >= 0.0; } else { assert k * (y - x) > 0.0; }
  }

  /** Price up: the bucket's price is so much above the last price `lookback` buckets ago. */
  ghost predicate Rose(p: Params, legs: seq<Leg>, t: string, b: int)
    requires p.Ok()
  {
    var was, cur := LastPrice(p, legs, t, b - p.lookback), PriceIn(p, legs, t, b);
    was.Some? && was.value > 0.0 && cur > 0.0 && UpBy(cur, was.value, p.spikeMinPricePct)
  }

  lemma RoseIff(p: Params, legs: seq<Leg>, t: string, b: int)
    requires p.Ok() && Ordered(legs)
    ensures RisenSince(p, Priced(p, legs, t), b) <==> Rose(p, legs, t, b)
  {
    PricedIsLast(p, legs, t, b - p.lookback);
    PricedAt(p, legs, t, b);
    hide PastValue, Priced, At, LastPrice, PriceIn, UpBy, Ordered;
    var was, cur := LastPrice(p, legs, t, b - p.lookback), PriceIn(p, legs, t, b);
    if was.Some? && was.value > 0.0 { PercentIs(cur, was.value, p.spikeMinPricePct); }
  }

  // ----- what is reported on the last leg of a run that emits throughout

  function Reported(p: Params, creators: map<string, string>, legs: seq<Leg>): seq<Alert>
    requires p.Ok() && |legs| > 0
  {
    var before := legs[..|legs| - 1];
    AllAlerts(p, CoreRun(p, EMPTY, creators, before), LiveRun(p, EMPTY, NO_MEMORY, creators, before).0, creators, legs[|legs| - 1])
  }

  ghost predicate OnlyKind(alerts: seq<Alert>, kind: Kind) {
    forall a :: a in alerts ==> a.kind == kind
  }

  lemma EightKinds(p: Params, c: Core, mem: Memory, creators: map<string, string>, leg: Leg)
    requires p.Ok()
    ensures var r := Record(p, c, leg);
            var m := MovePosition(r, creators, leg);
            && OnlyKind(GraduationAlert(c, leg), Graduation) && OnlyKind(DevSellAlert(p, r, creators, leg), DevSell)
            && OnlyKind(LargeSellAlert(p, r, creators, leg), LargeSell) && OnlyKind(WhaleBuyAlert(p, r, leg), WhaleBuy)
            && OnlyKind(SurgeAlert(p, m, mem.surge, leg), PriceSurge) && OnlyKind(CollapseAlert(p, m, leg), VolumeCollapse)
            && OnlyKind(CompoundAlert(p, m, Remember(p, c, mem, creators, leg).devSell, leg), Compound)
            && OnlyKind(SpikeAlert(p, m, leg), VolumeSpike)
  {
    hide Record, MovePosition, PriceUp, Recent, IsSignificantSell, PctOfPosition, SeverityFor, Collapses, Spikes, Surges, BucketZ,
         PastPrice, Leg.Token, Leg.Wallet, Leg.Price, Remember, ByCreator;
  }

  /** Each kind among all that is reported on the last leg. */
  lemma KindsReported(p: Params, creators: map<string, string>, legs: seq<Leg>, kind: Kind)
    requires p.Ok() && |legs| > 0
    ensures var mine := AlertsOf(p, creators, legs, kind);
            && (forall x :: x in Reported(p, creators, legs) && x.kind == kind <==> x in mine)
            && (Tells(Reported(p, creators, legs), kind) <==> |mine| > 0)
  {
    var before, leg := legs[..|legs| - 1], legs[|legs| - 1];
    var c, mem := CoreRun(p, EMPTY, creators, before), LiveRun(p, EMPTY, NO_MEMORY, creators, before).0;
    EightKinds(p, c, mem, creators, leg);
    var r := Record(p, c, leg);
    var m := MovePosition(r, creators, leg);
    hide CoreRun, LiveRun, Record, MovePosition, Remember, OnlyKind, Tells, GraduationAlert, DevSellAlert, LargeSellAlert, WhaleBuyAlert,
         SurgeAlert, CollapseAlert, CompoundAlert, SpikeAlert;
    PickKind(GraduationAlert(c, leg), DevSellAlert(p, r, creators, leg), LargeSellAlert(p, r, creators, leg),
             WhaleBuyAlert(p, r, leg), SurgeAlert(p, m, mem.surge, leg), CollapseAlert(p, m, leg),
             CompoundAlert(p, m, Remember(p, c, mem, creators, leg).devSell, leg), SpikeAlert(p, m, leg), kind);
  }

  function AlertsOf(p: Params, creators: map<string, string>, legs: seq<Leg>, kind: Kind): seq<Alert>
    requires p.Ok() && |legs| > 0
  {
    var before, leg := legs[..|legs| - 1], legs[|legs| - 1];
    var c, mem := CoreRun(p, EMPTY, creators, before), LiveRun(p, EMPTY, NO_MEMORY, creators, before).0;
    var r := Record(p, c, leg);
    var m := MovePosition(r, creators, leg);
    match kind
    case Graduation => GraduationAlert(c, leg)
    case DevSell => DevSellAlert(p, r, creators, leg)
    case LargeSell => LargeSellAlert(p, r, creators, leg)
    case WhaleBuy => WhaleBuyAlert(p, r, leg)
    case PriceSurge => SurgeAlert(p, m, mem.surge, leg)
    case VolumeCollapse => CollapseAlert(p, m, leg)
    case Compound => CompoundAlert(p, m, Remember(p, c, mem, creators, leg).devSell, leg)
    case VolumeSpike => SpikeAlert(p, m, leg)
  }

  lemma PickKind(a: seq<Alert>, b: seq<Alert>, c: seq<Alert>, d: seq<Alert>, e: seq<Alert>, f: seq<Alert>, g: seq<Alert>,
                 h: seq<Alert>, kind: Kind)
    requires OnlyKind(a, Graduation) && OnlyKind(b, DevSell) && OnlyKind(c, LargeSell) && OnlyKind(d, WhaleBuy)
    requires OnlyKind(e, PriceSurge) && OnlyKind(f, VolumeCollapse) && OnlyKind(g, Compound) && OnlyKind(h, VolumeSpike)
    ensures var all := a + b + c + d + e + f + g + h;
            var mine := match kind
                        case Graduation => a
                        case DevSell => b
                        case LargeSell => c
                        case WhaleBuy => d
                        case PriceSurge => e
                        case VolumeCollapse => f
                        case Compound => g
                        case VolumeSpike => h;
            (forall x :: x in all && x.kind == kind <==> x in mine) && (Tells(all, kind) <==> |mine| > 0)
  {
    var all := a + b + c + d + e + f + g + h;
    assert forall x :: x in all <==> x in a || x in b || x in c || x in d || x in e || x in f || x in g || x in h;
    var mine := match kind
                case Graduation => a
                case DevSell => b
                case LargeSell => c
                case WhaleBuy => d
                case PriceSurge => e
                case VolumeCollapse => f
                case Compound => g
                case VolumeSpike => h;
    if |mine| > 0 { assert mine[0] in all && mine[0].kind == kind; }
  }

  /** The core with the last leg entered into the caches. */
  function Entered(p: Params, creators: map<string, string>, legs: seq<Leg>): Core
    requires p.Ok() && |legs| > 0
  {
    Record(p, CoreRun(p, EMPTY, creators, legs[..|legs| - 1]), legs[|legs| - 1])
  }

  // ----- graduation

  lemma SeenStep(p: Params, c: Core, creators: map<string, string>, leg: Leg)
    requires p.Ok()
    ensures CoreStep(p, c, creators, leg).seen == if leg.Token() != "" then c.seen + {leg.Token()} else c.seen
  {
    hide Add, Write, Moved, Collapses, Spikes, Leg.Token, Leg.Price;
  }

  ghost predicate Appears(legs: seq<Leg>, t: string) {
    exists i :: 0 <= i < |legs| && legs[i].Token() == t
  }

  lemma AppearsMore(legs: seq<Leg>, leg: Leg, t: string)
    ensures Appears(legs + [leg], t) <==> Appears(legs, t) || leg.Token() == t
  {
    hide Leg.Token;
    var more := legs + [leg];
    if Appears(legs, t) {
      var i :| 0 <= i < |legs| && legs[i].Token() == t;
      assert more[i].Token() == t;
    }
    assert more[|legs|] == leg;
  }

  lemma NoneTraded(p: Params, creators: map<string, string>, t: string)
    requires p.Ok()
    ensures t !in CoreRun(p, EMPTY, creators, []).seen && !Appears([], t)
  {
  }

  /** The tokens of the legs so far, but for the empty one. */
  lemma {:induction false} SeenIs(p: Params, creators: map<string, string>, legs: seq<Leg>, t: string)
    requires p.Ok()
    ensures t in CoreRun(p, EMPTY, creators, legs).seen <==> t != "" && Appears(legs, t)
  {
    hide *;
    if |legs| == 0 {
      NoneTraded(p, creators, t);
      assert legs == [];
    } else {
      var before, leg := legs[..|legs| - 1], legs[|legs| - 1];
      assert before + [leg] == legs;
      SeenIs(p, creators, before, t);
      SeenStep(p, CoreRun(p, EMPTY, creators, before), creators, leg);
      CoreRunMore(p, EMPTY, creators, before, leg);
      AppearsMore(before, leg, t);
    }
  }

  lemma GraduationIs(p: Params, creators: map<string, string>, legs: seq<Leg>)
    requires p.Ok() && |legs| > 0
    ensures AlertsOf(p, creators, legs, Graduation) == GraduationAlert(CoreRun(p, EMPTY, creators, legs[..|legs| - 1]), legs[|legs| - 1])
  {
    hide CoreRun, LiveRun, Record, MovePosition, Remember;
  }

  /** A token graduates with its first leg. */
  lemma GraduationIff(p: Params, creators: map<string, string>, legs: seq<Leg>)
    requires p.Ok() && |legs| > 0
    ensures var before, leg := legs[..|legs| - 1], legs[|legs| - 1];
            var t := leg.Token();
            && (Tells(Reported(p, creators, legs), Graduation)
                <==> t != "" && forall i :: 0 <= i < |before| ==> before[i].Token() != t)
            && forall a :: a in Reported(p, creators, legs) && a.kind == Graduation ==>
                 a == Alert(t, Graduation, Medium, leg.block, None, None, None)
  {
    hide Reported, CoreRun, Tells, AlertsOf, Leg.Token;
    KindsReported(p, creators, legs, Graduation);
    GraduationIs(p, creators, legs);
    SeenIs(p, creators, legs[..|legs| - 1], legs[|legs| - 1].Token());
  }

  // ----- large sells and whale buys

  lemma ReadsOfEntered(p: Params, creators: map<string, string>, legs: seq<Leg>)
    requires p.Ok() && |legs| > 0
    ensures var leg := legs[|legs| - 1];
            && Recent(p, Entered(p, creators, legs).volume, leg) == ReadsOf(p, Scene(p, creators, legs), leg).volume
            && PriceUp(p, Entered(p, creators, legs), leg) == PriceUp(p, Scene(p, creators, legs), leg)
  {
    hide CoreRun, Record, MovePosition, ReadsOf, Recent, PriceUp, Leg.Token, Leg.Bucket;
    ReadsBeforeMove(p, Entered(p, creators, legs), creators, legs[|legs| - 1]);
    ReadsGive(p, Scene(p, creators, legs), legs[|legs| - 1]);
  }

  lemma FullReadsVolume(p: Params, legs: seq<Leg>)
    requires p.Ok() && |legs| > 0
    ensures var leg := legs[|legs| - 1];
            FullReads(p, legs).volume == SumFrom(Traded(p, legs, leg.Token(), None), leg.Bucket(p) - 6)
  {
    hide SumFrom, Traded, LastZ, At, RisenSince, Priced, Leg.Token, Leg.Bucket;
  }

  lemma FullVolume(p: Params, legs: seq<Leg>)
    requires p.Ok() && |legs| > 0 && Ordered(legs)
    ensures var leg := legs[|legs| - 1];
            FullReads(p, legs).volume == ValueSince(p, legs, leg.Token(), None, leg.Bucket(p) - 6)
  {
    hide *;
    FullReadsVolume(p, legs);
    TradedIsValue(p, legs, legs[|legs| - 1].Token(), None, legs[|legs| - 1].Bucket(p) - 6);
  }

  /** The caches the rules read hold the sums over the legs, unless lookback is 1. */
  lemma RecentIs(p: Params, creators: map<string, string>, legs: seq<Leg>)
    requires p.Ok() && |legs| > 0 && Ordered(legs) && p.lookback != 1
    ensures var leg := legs[|legs| - 1];
            Recent(p, Entered(p, creators, legs).volume, leg) == ValueSince(p, legs, leg.Token(), None, leg.Bucket(p) - 6)
  {
    hide *;
    ReadsAreFull(p, creators, legs);
    ReadsOfEntered(p, creators, legs);
    FullVolume(p, legs);
  }

  lemma RoseNow(p: Params, creators: map<string, string>, legs: seq<Leg>)
    requires p.Ok() && |legs| > 0 && Ordered(legs)
    ensures var leg := legs[|legs| - 1];
            PriceUp(p, Entered(p, creators, legs), leg) <==> Rose(p, legs, leg.Token(), leg.Bucket(p))
  {
    hide Entered, Scene, ReadsOf, PriceUp, RisenSince, Priced, Ordered, Rose, Recent, Leg.Token, Leg.Bucket;
    var leg := legs[|legs| - 1];
    PriceUpIsExact(p, creators, legs);
    ReadsOfEntered(p, creators, legs);
    RoseIff(p, legs, leg.Token(), leg.Bucket(p));
  }

  lemma TradeAlertsAre(p: Params, creators: map<string, string>, legs: seq<Leg>)
    requires p.Ok() && |legs| > 0
    ensures AlertsOf(p, creators, legs, LargeSell) == LargeSellAlert(p, Entered(p, creators, legs), creators, legs[|legs| - 1])
    ensures AlertsOf(p, creators, legs, WhaleBuy) == WhaleBuyAlert(p, Entered(p, creators, legs), legs[|legs| - 1])
    ensures AlertsOf(p, creators, legs, DevSell) == DevSellAlert(p, Entered(p, creators, legs), creators, legs[|legs| - 1])
  {
    hide CoreRun, LiveRun, Record, MovePosition, Remember, LargeSellAlert, WhaleBuyAlert, DevSellAlert;
  }

  lemma LargeSellIs(p: Params, c: Core, creators: map<string, string>, leg: Leg)
    requires p.Ok()
    ensures var recent, mine := Recent(p, c.volume, leg), LargeSellAlert(p, c, creators, leg);
            && (|mine| > 0 <==> && leg.side == Sell
                                && leg.Wallet() != (if leg.Token() in creators then Lower(creators[leg.Token()]) else "")
                                && leg.sv >= p.largeSellUsd && (recent <= 0.0 || leg.sv >= p.largeSellRatio * recent))
            && forall a :: a in mine ==>
                 a == Alert(leg.Token(), LargeSell, if leg.sv >= 4.0 * p.largeSellUsd then High else Medium, leg.block,
                            Some(leg.Wallet()), Some(leg.sv), None)
  {
    hide Recent, Lower, Leg.Token, Leg.Wallet;
  }

  lemma WhaleBuyIs(p: Params, c: Core, leg: Leg)
    requires p.Ok()
    ensures var recent, mine := Recent(p, c.volume, leg), WhaleBuyAlert(p, c, leg);
            && (|mine| > 0 <==> leg.side == Buy && leg.sv >= p.whaleBuyUsd && PriceUp(p, c, leg) && (recent <= 0.0 || 2.0 * leg.sv >= recent))
            && forall a :: a in mine ==>
                 a == Alert(leg.Token(), WhaleBuy, if leg.sv >= 5.0 * p.whaleBuyUsd then High else Medium, leg.block,
                            Some(leg.Wallet()), Some(leg.sv), None)
  {
    hide Recent, PriceUp, Leg.Token, Leg.Wallet;
  }

  /** A sale by anyone but the creator, large in itself and against the token's value of
      the last seven buckets. */
  lemma LargeSellIff(p: Params, creators: map<string, string>, legs: seq<Leg>)
    requires p.Ok() && |legs| > 0 && Ordered(legs) && p.lookback != 1
    ensures var leg := legs[|legs| - 1];
            var t, w := leg.Token(), leg.Wallet();
            var recent := ValueSince(p, legs, t, None, leg.Bucket(p) - 6);
            && (Tells(Reported(p, creators, legs), LargeSell)
                <==> && leg.side == Sell && w != (if t in creators then Lower(creators[t]) else "")
                     && leg.sv >= p.largeSellUsd && (recent <= 0.0 || leg.sv >= p.largeSellRatio * recent))
            && forall a :: a in Reported(p, creators, legs) && a.kind == LargeSell ==>
                 a == Alert(t, LargeSell, if leg.sv >= 4.0 * p.largeSellUsd then High else Medium, leg.block, Some(w), Some(leg.sv), None)
  {
    hide *;
    KindsReported(p, creators, legs, LargeSell);
    TradeAlertsAre(p, creators, legs);
    RecentIs(p, creators, legs);
    LargeSellIs(p, Entered(p, creators, legs), creators, legs[|legs| - 1]);
  }

  /** A buy, large in itself and at least half of the token's value of the last seven
      buckets, while the price is up. */
  lemma WhaleBuyIff(p: Params, creators: map<string, string>, legs: seq<Leg>)
    requires p.Ok() && |legs| > 0 && Ordered(legs) && p.lookback != 1
    ensures var leg := legs[|legs| - 1];
            var t := leg.Token();
            var recent := ValueSince(p, legs, t, None, leg.Bucket(p) - 6);
            && (Tells(Reported(p, creators, legs), WhaleBuy)
                <==> && leg.side == Buy && leg.sv >= p.whaleBuyUsd && Rose(p, legs, t, leg.Bucket(p))
                     && (recent <= 0.0 || 2.0 * leg.sv >= recent))
            && forall a :: a in Reported(p, creators, legs) && a.kind == WhaleBuy ==>
                 a == Alert(t, WhaleBuy, if leg.sv >= 5.0 * p.whaleBuyUsd then High else Medium, leg.block, Some(leg.Wallet()),
                            Some(leg.sv), None)
  {
    hide *;
    KindsReported(p, creators, legs, WhaleBuy);
    TradeAlertsAre(p, creators, legs);
    RecentIs(p, creators, legs);
    RoseNow(p, creators, legs);
    WhaleBuyIs(p, Entered(p, creators, legs), legs[|legs| - 1]);
  }

  // ----- the creator's book

  /** The leg as the shared books know it. */
  function OwnLeg(leg: Leg): Pnl.Leg {
    Pnl.Leg(leg.Wallet(), leg.Token(), "", leg.block, 0, if leg.side == Buy then Pnl.Buy else Pnl.Sell, leg.qty, leg.sv)
  }

  /** The creator's trades of its token. */
  function CreatorLegs(creators: map<string, string>, legs: seq<Leg>, t: string): seq<Pnl.Leg> {
    if |legs| == 0 then []
    else
      var leg := legs[|legs| - 1];
      CreatorLegs(creators, legs[..|legs| - 1], t)
      + (if leg.Token() == t && ByCreator(creators, leg) && leg.side != OtherSide then [OwnLeg(leg)] else [])
  }

  ghost predicate HoldsBook(positions: map<(string, string), Position>, key: (string, string), a: Pnl.Acct) {
    && (key in positions <==> a.qty > 0.0)
    && (key in positions ==> positions[key] == Position(a.qty, a.cost, positions[key].entry) && a.entry == Some(positions[key].entry))
  }

  lemma BookMoves(positions: map<(string, string), Position>, creators: map<string, string>, leg: Leg, a: Pnl.Acct)
    requires ByCreator(creators, leg) && leg.side != OtherSide && Pnl.Sound(a) && HoldsBook(positions, (leg.Wallet(), leg.Token()), a)
    requires OwnLeg(leg).Valued()
    ensures HoldsBook(Moved(positions, creators, leg), (leg.Wallet(), leg.Token()), Pnl.Fill(a, OwnLeg(leg)))
  {
    hide ByCreator, Leg.Wallet, Leg.Token;
    if leg.side == Sell && a.qty > 0.0 {
      Pnl.CostBounds(a, Pnl.SoldOf(a, OwnLeg(leg)));
      hide Pnl.Proceeds;
    }
  }

  lemma BookElsewhere(positions: map<(string, string), Position>, creators: map<string, string>, leg: Leg, t: string, a: Pnl.Acct)
    requires HoldsBook(positions, (CreatorOf(creators, t), t), a)
    requires !(leg.Token() == t && ByCreator(creators, leg) && leg.side != OtherSide)
    ensures HoldsBook(Moved(positions, creators, leg), (CreatorOf(creators, t), t), a)
  {
    hide AfterSale, CreatorOf, Leg.Token, Leg.Wallet;
  }

  lemma CreatorLegsMore(creators: map<string, string>, legs: seq<Leg>, leg: Leg, t: string)
    ensures CreatorLegs(creators, legs + [leg], t)
         == CreatorLegs(creators, legs, t)
            + (if leg.Token() == t && ByCreator(creators, leg) && leg.side != OtherSide then [OwnLeg(leg)] else [])
  {
    hide ByCreator, Leg.Token, OwnLeg;
    assert (legs + [leg])[..|legs|] == legs;
  }

  lemma ValuedParts(a: seq<Pnl.Leg>, b: seq<Pnl.Leg>)
    requires Pnl.AllValued(a + b)
    ensures Pnl.AllValued(a) && (|b| > 0 ==> b[0].Valued())
  {
    assert forall i :: 0 <= i < |a| ==> (a + b)[i] == a[i];
    if |b| > 0 { assert (a + b)[|a|] == b[0]; }
  }

  lemma CreatorIs(creators: map<string, string>, leg: Leg)
    ensures var creator := if leg.Token() in creators then Lower(creators[leg.Token()]) else "";
            CreatorOf(creators, leg.Token()) == creator && (ByCreator(creators, leg) <==> creator != "" && leg.Wallet() == creator)
  {
    hide Lower, Leg.Token, Leg.Wallet;
  }

  lemma NoBook(p: Params, creators: map<string, string>, t: string)
    requires p.Ok()
    ensures HoldsBook(CoreRun(p, EMPTY, creators, []).positions, (CreatorOf(creators, t), t), Pnl.Book(CreatorLegs(creators, [], t)))
  {
  }

  /** The creator's tracked position is the average-cost account of its trades. */
  lemma {:induction false} PositionIsBook(p: Params, creators: map<string, string>, legs: seq<Leg>, t: string)
    requires p.Ok() && Pnl.AllValued(CreatorLegs(creators, legs, t))
    ensures HoldsBook(CoreRun(p, EMPTY, creators, legs).positions, (CreatorOf(creators, t), t), Pnl.Book(CreatorLegs(creators, legs, t)))
  {
    hide *;
    if |legs| == 0 {
      NoBook(p, creators, t);
      assert legs == [];
    } else {
      var before, leg := legs[..|legs| - 1], legs[|legs| - 1];
      assert before + [leg] == legs;
      var own := CreatorLegs(creators, before, t);
      CreatorLegsMore(creators, before, leg, t);
      if leg.Token() == t && ByCreator(creators, leg) && leg.side != OtherSide {
        ValuedParts(own, [OwnLeg(leg)]);
        PositionIsBook(p, creators, before, t);
        PositionsMove(p, creators, legs);
        Pnl.BookIsSound(own);
        Pnl.BookStep(own, OwnLeg(leg));
        CreatorIs(creators, leg);
        BookMoves(CoreRun(p, EMPTY, creators, before).positions, creators, leg, Pnl.Book(own));
      } else {
        assert own + [] == own;
        PositionIsBook(p, creators, before, t);
        PositionsMove(p, creators, legs);
        BookElsewhere(CoreRun(p, EMPTY, creators, before).positions, creators, leg, t, Pnl.Book(own));
      }
    }
  }

  lemma PositionsMove(p: Params, creators: map<string, string>, legs: seq<Leg>)
    requires p.Ok() && |legs| > 0
    ensures CoreRun(p, EMPTY, creators, legs).positions
         == Moved(CoreRun(p, EMPTY, creators, legs[..|legs| - 1]).positions, creators, legs[|legs| - 1])
  {
    hide Add, Write, Moved, Collapses, Spikes;
  }

  // ----- the creator sells

  /** One step more severe. */
  function Raised(sev: Severity): Severity {
    match sev
    case Low => Medium
    case _ => High
  }

  lemma ShareIs(sold: real, held: real)
    requires held > 0.0 && sold <= held
    ensures var pct := PctOfPosition(sold, held);
            && pct.Some? && (sold >= 0.0 ==> pct.value * held == sold)
            && (pct.value >= 0.5 <==> 2.0 * sold >= held) && (pct.value >= 0.8 <==> 5.0 * sold >= 4.0 * held)
  {
    var q := sold / held;
    assert q * held == sold;
    AtLeast(held, q, sold, 0.5);
    AtLeast(held, q, sold, 0.8);
    AtLeast(held, q, sold, 0.0);
    Scale(held, 1.0, q);
  }

  lemma AtLeast(held: real, q: real, sold: real, share: real)
    requires held > 0.0 && q * held == sold
    ensures q >= share <==> sold >= held * share
  {
    Scale(held, q, share);
  }

  /** Severity of a sale of `sold` out of `held` units for `proceeds`. */
  function SaleSeverity(sold: real, held: real, proceeds: real): Severity {
    if 5.0 * sold >= 4.0 * held || proceeds >= 5000.0 then High
    else if 2.0 * sold >= held || proceeds >= 500.0 then Medium
    else Low
  }

  lemma SaleRules(sold: real, held: real, proceeds: real)
    requires held > 0.0 && sold <= held
    ensures IsSignificantSell(sold, held, proceeds) <==> 2.0 * sold >= held || proceeds >= 100.0
    ensures SeverityFor(PctOfPosition(sold, held), proceeds) == SaleSeverity(sold, held, proceeds)
  {
    ShareIs(sold, held);
    hide PctOfPosition;
  }

  /** What the creator's sale of `leg.qty` from `held` units reports. */
  lemma DevSellIs(p: Params, c: Core, creators: map<string, string>, leg: Leg, held: real)
    requires p.Ok() && leg.qty > 0.0
    requires var key := (leg.Wallet(), leg.Token());
             (key in c.positions <==> held > 0.0) && (held > 0.0 ==> c.positions[key].qty == held)
    ensures var sold := Min(leg.qty, held);
            var proceeds := ProceedsOf(leg, sold);
            var sev := SaleSeverity(sold, held, proceeds);
            var mine := DevSellAlert(p, c, creators, leg);
            && (|mine| > 0 <==> ByCreator(creators, leg) && leg.side == Sell && held > 0.0 && (2.0 * sold >= held || proceeds >= 100.0))
            && forall a :: a in mine ==>
                 && a.token == leg.Token() && a.kind == DevSell && a.block == leg.block && a.wallet == Some(leg.Wallet())
                 && a.amount == Some(proceeds) && a.pct.Some? && a.pct.value * held == sold
                 && a.severity == if Recent(p, c.volume, leg) >= p.minConfirm then Raised(sev) else sev
  {
    hide Recent, ByCreator, PctOfPosition, IsSignificantSell, SeverityFor, SaleSeverity, Leg.Token, Leg.Wallet;
    hide ProceedsOf;
    var sold := Min(leg.qty, held);
    if held > 0.0 {
      ShareIs(sold, held);
      SaleRules(sold, held, ProceedsOf(leg, sold));
    }
  }

  lemma ProceedsAre(leg: Leg, sold: real)
    requires leg.qty > 0.0
    ensures ProceedsOf(leg, sold) * leg.qty == leg.sv * sold
  {
    assert sold / leg.qty * leg.qty == sold;
  }

  lemma LesserIs(x: real, y: real)
    ensures Min(x, y) == if x <= y then x else y
  {
  }

  /** A creator's sale is reported exactly when it sells at least half of what its book
      holds or takes 100 or more, with a severity by share and proceeds that recent
      volume raises one step. */
  lemma DevSellIff(p: Params, creators: map<string, string>, legs: seq<Leg>)
    requires p.Ok() && |legs| > 0 && Ordered(legs) && p.lookback != 1
    requires Pnl.AllValued(CreatorLegs(creators, legs, legs[|legs| - 1].Token()))
    ensures var before, leg := legs[..|legs| - 1], legs[|legs| - 1];
            var t := leg.Token();
            Pnl.AllValued(CreatorLegs(creators, before, t))
    ensures var before, leg := legs[..|legs| - 1], legs[|legs| - 1];
            var t := leg.Token();
            var held := Pnl.Book(CreatorLegs(creators, before, t)).qty;
            var sold := if leg.qty <= held then leg.qty else held;
            var proceeds := ProceedsOf(leg, sold);
            var sev := SaleSeverity(sold, held, proceeds);
            var recent := ValueSince(p, legs, t, None, leg.Bucket(p) - 6);
            var creator := if t in creators then Lower(creators[t]) else "";
            && (leg.qty > 0.0 ==> proceeds * leg.qty == leg.sv * sold)
            && (Tells(Reported(p, creators, legs), DevSell)
                <==> creator != "" && leg.Wallet() == creator && leg.side == Sell && held > 0.0 && (2.0 * sold >= held || proceeds >= 100.0))
            && forall a :: a in Reported(p, creators, legs) && a.kind == DevSell ==>
                 && a.token == t && a.block == leg.block && a.wallet == Some(leg.Wallet())
                 && a.amount == Some(proceeds) && a.pct.Some? && a.pct.value * held == sold
                 && a.severity == if recent >= p.minConfirm then Raised(sev) else sev
  {
    hide *;
    var before, leg := legs[..|legs| - 1], legs[|legs| - 1];
    var t := leg.Token();
    assert before + [leg] == legs;
    CreatorLegsMore(creators, before, leg, t);
    ValuedParts(CreatorLegs(creators, before, t), if ByCreator(creators, leg) && leg.side != OtherSide then [OwnLeg(leg)] else []);
    KindsReported(p, creators, legs, DevSell);
    TradeAlertsAre(p, creators, legs);
    RecentIs(p, creators, legs);
    CreatorIs(creators, leg);
    var held := Pnl.Book(CreatorLegs(creators, before, t)).qty;
    LesserIs(leg.qty, held);
    if leg.qty > 0.0 { ProceedsAre(leg, Min(leg.qty, held)); }
    if ByCreator(creators, leg) && leg.side == Sell {
      OwnIsValued(leg);
      PositionIsBook(p, creators, before, t);
      HeldInBook(p, creators, legs);
      DevSellIs(p, Entered(p, creators, legs), creators, leg, held);
    } else {
      NoDevSell(p, Entered(p, creators, legs), creators, leg);
    }
  }

  lemma OwnIsValued(leg: Leg)
    requires OwnLeg(leg).Valued()
    ensures leg.qty > 0.0
  {
  }

  lemma NoDevSell(p: Params, c: Core, creators: map<string, string>, leg: Leg)
    requires p.Ok() && !(ByCreator(creators, leg) && leg.side == Sell)
    ensures DevSellAlert(p, c, creators, leg) == []
  {
    hide ByCreator, Recent, IsSignificantSell, SeverityFor, PctOfPosition;
  }

  lemma HeldInBook(p: Params, creators: map<string, string>, legs: seq<Leg>)
    requires p.Ok() && |legs| > 0 && ByCreator(creators, legs[|legs| - 1])
    requires var before, t := legs[..|legs| - 1], legs[|legs| - 1].Token();
             && Pnl.AllValued(CreatorLegs(creators, before, t))
             && HoldsBook(CoreRun(p, EMPTY, creators, before).positions, (CreatorOf(creators, t), t), Pnl.Book(CreatorLegs(creators, before, t)))
    ensures var before, leg := legs[..|legs| - 1], legs[|legs| - 1];
            var key, positions := (leg.Wallet(), leg.Token()), Entered(p, creators, legs).positions;
            var held := Pnl.Book(CreatorLegs(creators, before, leg.Token())).qty;
            (key in positions <==> held > 0.0) && (held > 0.0 ==> positions[key].qty == held)
  {
    CreatorIs(creators, legs[|legs| - 1]);
    hide CoreRun, Pnl.Book, CreatorLegs, Add, Write, Leg.Token, Leg.Wallet, Leg.Price, CreatorOf, ByCreator;
  }

  // ----- what was reported before

  /** The token's last leg on which the kind was reported. */
  function LastTold(p: Params, creators: map<string, string>, legs: seq<Leg>, kind: Kind, t: string): Option<Leg>
    requires p.Ok()
  {
    if |legs| == 0 then None
    else if legs[|legs| - 1].Token() == t && Tells(Reported(p, creators, legs), kind) then Some(legs[|legs| - 1])
    else LastTold(p, creators, legs[..|legs| - 1], kind, t)
  }

  /** The memory is of the last surge and the last creator's sale. */
  ghost predicate Recalls(p: Params, creators: map<string, string>, legs: seq<Leg>, t: string)
    requires p.Ok()
  {
    var mem := LiveRun(p, EMPTY, NO_MEMORY, creators, legs).0;
    var surged, sold := LastTold(p, creators, legs, PriceSurge, t), LastTold(p, creators, legs, DevSell, t);
    && Get(mem.surge, t) == (if surged.Some? then Some(surged.value.Bucket(p)) else None)
    && Get(mem.devSell, t) == (if sold.Some? then Some(sold.value.block) else None)
  }

  lemma SurgeAlertIff(p: Params, c: Core, surge: map<string, int>, leg: Leg)
    requires p.Ok()
    ensures |SurgeAlert(p, c, surge, leg)| > 0 <==> Surges(p, c, surge, leg)
  {
    hide Surges, PastPrice;
  }

  lemma RememberStep(p: Params, c: Core, was: Memory, creators: map<string, string>, leg: Leg, t: string)
    requires p.Ok()
    ensures var r := Record(p, c, leg);
            var mem := Remember(p, c, was, creators, leg);
            && Get(mem.surge, t) == (if leg.Token() == t && |SurgeAlert(p, MovePosition(r, creators, leg), was.surge, leg)| > 0
                                     then Some(leg.Bucket(p)) else Get(was.surge, t))
            && Get(mem.devSell, t) == (if leg.Token() == t && |DevSellAlert(p, r, creators, leg)| > 0
                                       then Some(leg.block) else Get(was.devSell, t))
  {
    SurgeAlertIff(p, MovePosition(Record(p, c, leg), creators, leg), was.surge, leg);
    hide Record, MovePosition, SurgeAlert, Surges, DevSellAlert, Leg.Token, Leg.Bucket;
  }

  lemma LiveMemory(p: Params, creators: map<string, string>, legs: seq<Leg>)
    requires p.Ok() && |legs| > 0
    ensures var before, leg := legs[..|legs| - 1], legs[|legs| - 1];
            LiveRun(p, EMPTY, NO_MEMORY, creators, legs).0
            == Remember(p, CoreRun(p, EMPTY, creators, before), LiveRun(p, EMPTY, NO_MEMORY, creators, before).0, creators, leg)
  {
    hide CoreRun, Remember, AllAlerts;
  }

  lemma EnteredIs(p: Params, creators: map<string, string>, legs: seq<Leg>)
    requires p.Ok() && |legs| > 0
    ensures var before, leg := legs[..|legs| - 1], legs[|legs| - 1];
            && Entered(p, creators, legs) == Record(p, CoreRun(p, EMPTY, creators, before), leg)
            && Scene(p, creators, legs) == MovePosition(Record(p, CoreRun(p, EMPTY, creators, before), leg), creators, leg)
  {
  }

  lemma RememberIs(p: Params, creators: map<string, string>, legs: seq<Leg>, t: string)
    requires p.Ok() && |legs| > 0
    ensures var before, leg := legs[..|legs| - 1], legs[|legs| - 1];
            var was, mem := LiveRun(p, EMPTY, NO_MEMORY, creators, before).0, LiveRun(p, EMPTY, NO_MEMORY, creators, legs).0;
            && Get(mem.surge, t) == (if leg.Token() == t && |AlertsOf(p, creators, legs, PriceSurge)| > 0 then Some(leg.Bucket(p)) else Get(was.surge, t))
            && Get(mem.devSell, t) == (if leg.Token() == t && |AlertsOf(p, creators, legs, DevSell)| > 0 then Some(leg.block) else Get(was.devSell, t))
  {
    var before, leg := legs[..|legs| - 1], legs[|legs| - 1];
    hide *;
    LiveMemory(p, creators, legs);
    TradeAlertsAre(p, creators, legs);
    SurgeAlertsAre(p, creators, legs);
    EnteredIs(p, creators, legs);
    RememberStep(p, CoreRun(p, EMPTY, creators, before), LiveRun(p, EMPTY, NO_MEMORY, creators, before).0, creators, leg, t);
  }

  lemma NothingRecalled(p: Params, creators: map<string, string>, t: string)
    requires p.Ok()
    ensures Recalls(p, creators, [], t)
  {
  }

  lemma {:induction false} RecallsAll(p: Params, creators: map<string, string>, legs: seq<Leg>, t: string)
    requires p.Ok()
    ensures Recalls(p, creators, legs, t)
  {
    hide Reported, AlertsOf, LiveRun, Tells, Leg.Token, Leg.Bucket, Get;
    if |legs| == 0 {
      NothingRecalled(p, creators, t);
      assert legs == [];
    } else {
      RecallsAll(p, creators, legs[..|legs| - 1], t);
      RememberIs(p, creators, legs, t);
      KindsReported(p, creators, legs, PriceSurge);
      KindsReported(p, creators, legs, DevSell);
    }
  }

  // ----- price surges and compounds

  lemma SurgeIs(p: Params, c: Core, surge: map<string, int>, leg: Leg, was: Option<real>)
    requires p.Ok() && was == PastPrice(p, Of(c.prices, leg.Token()), leg.Bucket(p))
    ensures var mine := SurgeAlert(p, c, surge, leg);
            && (|mine| > 0 <==> && leg.Price() > 0.0 && Get(surge, leg.Token()) != Some(leg.Bucket(p))
                                && was.Some? && was.value > 0.0 && UpBy(leg.Price(), was.value, p.priceSurgePct))
            && forall a :: a in mine ==>
                 a == Alert(leg.Token(), PriceSurge, if UpBy(leg.Price(), was.value, 200.0) then High else Medium, leg.block, None, None, None)
  {
    hide PastPrice, Of, Get, UpBy, Leg.Token, Leg.Bucket, Leg.Price;
    if was.Some? && was.value > 0.0 {
      PercentIs(leg.Price(), was.value, p.priceSurgePct);
      PercentIs(leg.Price(), was.value, 200.0);
    }
  }

  lemma SurgeAlertsAre(p: Params, creators: map<string, string>, legs: seq<Leg>)
    requires p.Ok() && |legs| > 0
    ensures AlertsOf(p, creators, legs, PriceSurge)
         == SurgeAlert(p, Scene(p, creators, legs), LiveRun(p, EMPTY, NO_MEMORY, creators, legs[..|legs| - 1]).0.surge, legs[|legs| - 1])
    ensures AlertsOf(p, creators, legs, VolumeCollapse) == CollapseAlert(p, Scene(p, creators, legs), legs[|legs| - 1])
    ensures AlertsOf(p, creators, legs, VolumeSpike) == SpikeAlert(p, Scene(p, creators, legs), legs[|legs| - 1])
    ensures AlertsOf(p, creators, legs, Compound)
         == CompoundAlert(p, Scene(p, creators, legs), LiveRun(p, EMPTY, NO_MEMORY, creators, legs).0.devSell, legs[|legs| - 1])
  {
    hide CoreRun, Record, MovePosition, Remember, AllAlerts, SurgeAlert, CollapseAlert, CompoundAlert, SpikeAlert;
  }

  lemma PastIs(p: Params, creators: map<string, string>, legs: seq<Leg>)
    requires p.Ok() && |legs| > 0 && Ordered(legs)
    ensures var t, b := legs[|legs| - 1].Token(), legs[|legs| - 1].Bucket(p);
            PastPrice(p, Of(Scene(p, creators, legs).prices, t), b) == LastPrice(p, legs, t, b - p.lookback)
  {
    hide *;
    PastPriceIsExact(p, creators, legs);
    PastOfLegs(p, legs, legs[|legs| - 1].Token(), legs[|legs| - 1].Bucket(p));
  }

  lemma PastOfLegs(p: Params, legs: seq<Leg>, t: string, b: int)
    requires p.Ok() && Ordered(legs)
    ensures PastPrice(p, Priced(p, legs, t), b) == LastPrice(p, legs, t, b - p.lookback)
  {
    PricedIsLast(p, legs, t, b - p.lookback);
    hide Priced, LastPrice, PastValue, Ordered;
  }

  /** A price so much above the last one `lookback` buckets ago is reported, once a bucket. */
  lemma SurgeIff(p: Params, creators: map<string, string>, legs: seq<Leg>)
    requires p.Ok() && |legs| > 0 && Ordered(legs)
    ensures var before, leg := legs[..|legs| - 1], legs[|legs| - 1];
            var t, b := leg.Token(), leg.Bucket(p);
            var was, told := LastPrice(p, legs, t, b - p.lookback), LastTold(p, creators, before, PriceSurge, t);
            && (Tells(Reported(p, creators, legs), PriceSurge)
                <==> && leg.Price() > 0.0 && was.Some? && was.value > 0.0 && UpBy(leg.Price(), was.value, p.priceSurgePct)
                     && !(told.Some? && told.value.Bucket(p) == b))
            && forall a :: a in Reported(p, creators, legs) && a.kind == PriceSurge ==>
                 was.Some? && a == Alert(t, PriceSurge, if UpBy(leg.Price(), was.value, 200.0) then High else Medium, leg.block, None, None, None)
  {
    hide *;
    var before, leg := legs[..|legs| - 1], legs[|legs| - 1];
    KindsReported(p, creators, legs, PriceSurge);
    SurgeAlertsAre(p, creators, legs);
    PastIs(p, creators, legs);
    RecalledSurge(p, creators, before, leg.Token());
    SurgeIs(p, Scene(p, creators, legs), LiveRun(p, EMPTY, NO_MEMORY, creators, before).0.surge, leg,
            LastPrice(p, legs, leg.Token(), leg.Bucket(p) - p.lookback));
  }

  lemma RecalledSurge(p: Params, creators: map<string, string>, legs: seq<Leg>, t: string)
    requires p.Ok()
    ensures var told := LastTold(p, creators, legs, PriceSurge, t);
            Get(LiveRun(p, EMPTY, NO_MEMORY, creators, legs).0.surge, t) == if told.Some? then Some(told.value.Bucket(p)) else None
  {
    RecallsAll(p, creators, legs, t);
    hide LiveRun, LastTold, Leg.Bucket, Get;
  }

  lemma RecalledSale(p: Params, creators: map<string, string>, legs: seq<Leg>, t: string)
    requires p.Ok()
    ensures var told := LastTold(p, creators, legs, DevSell, t);
            Get(LiveRun(p, EMPTY, NO_MEMORY, creators, legs).0.devSell, t) == if told.Some? then Some(told.value.block) else None
  {
    RecallsAll(p, creators, legs, t);
    hide LiveRun, LastTold, Leg.Bucket, Get;
  }

  lemma CompoundIs(p: Params, c: Core, sold: map<string, int>, leg: Leg)
    requires p.Ok()
    ensures var at, mine := Get(sold, leg.Token()), CompoundAlert(p, c, sold, leg);
            && (|mine| > 0 <==> |CollapseAlert(p, c, leg)| > 0 && at.Some? && 0 <= leg.block - at.value <= p.windowBlocks)
            && forall a :: a in mine ==> a == Alert(leg.Token(), Compound, High, leg.block, None, None, None)
  {
    hide Collapses, Get, BucketZ, Leg.Token;
  }

  /** A collapse is compound exactly when the creator's last reported sale lies at most
      `window_blocks` back. */
  lemma CompoundIff(p: Params, creators: map<string, string>, legs: seq<Leg>)
    requires p.Ok() && |legs| > 0
    ensures var leg := legs[|legs| - 1];
            var sold := LastTold(p, creators, legs, DevSell, leg.Token());
            && (Tells(Reported(p, creators, legs), Compound)
                <==> && Tells(Reported(p, creators, legs), VolumeCollapse)
                     && sold.Some? && 0 <= leg.block - sold.value.block <= p.windowBlocks)
            && forall a :: a in Reported(p, creators, legs) && a.kind == Compound ==>
                 a == Alert(leg.Token(), Compound, High, leg.block, None, None, None)
  {
    hide *;
    var leg := legs[|legs| - 1];
    KindsReported(p, creators, legs, Compound);
    KindsReported(p, creators, legs, VolumeCollapse);
    SurgeAlertsAre(p, creators, legs);
    RecalledSale(p, creators, legs, leg.Token());
    CompoundIs(p, Scene(p, creators, legs), LiveRun(p, EMPTY, NO_MEMORY, creators, legs).0.devSell, leg);
  }

  // ----- volume against the buckets before

  /** Value of the token's legs in one bucket. */
  function ValueIn(p: Params, legs: seq<Leg>, t: string, b: int): real
    requires p.Ok()
  {
    if |legs| == 0 then 0.0
    else
      var leg := legs[|legs| - 1];
      ValueIn(p, legs[..|legs| - 1], t, b) + (if leg.Token() == t && leg.Bucket(p) == b then leg.sv else 0.0)
  }

  /** The buckets in which the token traded. */
  function BucketsOf(p: Params, legs: seq<Leg>, t: string): set<int>
    requires p.Ok()
  {
    set i | 0 <= i < |legs| && legs[i].Token() == t :: legs[i].Bucket(p)
  }

  /** The token's volumes, bucket after bucket. */
  function Volumes(p: Params, legs: seq<Leg>, t: string): seq<real>
    requires p.Ok()
  {
    var ks := Sorted(BucketsOf(p, legs, t));
    seq(|ks|, i requires 0 <= i < |ks| => ValueIn(p, legs, t, ks[i]))
  }

  /** The volumes the last one is scored against: up to `lookback` before it. */
  function Window(p: Params, legs: seq<Leg>, t: string): seq<real>
    requires p.Ok() && |Volumes(p, legs, t)| > 0
  {
    var vols := Volumes(p, legs, t);
    var n := |vols| - 1;
    vols[if n > p.lookback then n - p.lookback else 0..n]
  }

  lemma BucketsMore(p: Params, legs: seq<Leg>, leg: Leg, t: string)
    requires p.Ok()
    ensures BucketsOf(p, legs + [leg], t) == BucketsOf(p, legs, t) + if leg.Token() == t then {leg.Bucket(p)} else {}
  {
    hide Leg.Token, Leg.Bucket;
    var more := legs + [leg];
    assert more[|legs|] == leg;
    forall i | 0 <= i < |legs| ensures more[i] == legs[i] {}
    forall b | b in BucketsOf(p, legs, t) ensures b in BucketsOf(p, more, t) {
      var i :| 0 <= i < |legs| && legs[i].Token() == t && legs[i].Bucket(p) == b;
      assert more[i].Token() == t;
    }
  }

  lemma {:induction false} TradedIs(p: Params, legs: seq<Leg>, t: string)
    requires p.Ok()
    ensures Traded(p, legs, t, None).Keys == BucketsOf(p, legs, t)
    ensures forall b :: At(Traded(p, legs, t, None), b) == ValueIn(p, legs, t, b)
  {
    if |legs| > 0 {
      var before, leg := legs[..|legs| - 1], legs[|legs| - 1];
      TradedIs(p, before, t);
      assert before + [leg] == legs;
      hide Leg.Token, Leg.Bucket, BucketsOf;
      BucketsMore(p, before, leg, t);
    }
  }

  lemma ValuesAre(p: Params, legs: seq<Leg>, t: string)
    requires p.Ok()
    ensures Values(Traded(p, legs, t, None), Sorted(Traded(p, legs, t, None).Keys)) == Volumes(p, legs, t)
  {
    TradedIs(p, legs, t);
    hide Traded, BucketsOf, ValueIn, Sorted, At;
  }

  /** The z-score of the volume of the token's newest bucket. */
  function Score(p: Params, legs: seq<Leg>, t: string): Option<real>
    requires p.Ok()
  {
    var vols := Volumes(p, legs, t);
    if |vols| == 0 then None else ZScore(Window(p, legs, t), vols[|vols| - 1], p.sqrt)
  }

  lemma LastScoreIs(vals: seq<real>, lookback: nat, sqrt: real -> real)
    ensures ScoreOfLast(vals, lookback, sqrt)
         == if |vals| == 0 then None
            else
              var n := |vals| - 1;
              ZScore(vals[if n > lookback then n - lookback else 0..n], vals[n], sqrt)
  {
    hide ZScore;
  }

  lemma LastZIsScore(p: Params, legs: seq<Leg>, t: string)
    requires p.Ok()
    ensures LastZ(Traded(p, legs, t, None), p.lookback, p.sqrt) == Score(p, legs, t)
  {
    ValuesAre(p, legs, t);
    hide Traded, Volumes, Values, Sorted, ZScore, ScoreOfLast;
    LastScoreIs(Volumes(p, legs, t), p.lookback, p.sqrt);
  }

  /** The newest bucket is that of the last leg. */
  lemma NewestIsNow(p: Params, legs: seq<Leg>)
    requires p.Ok() && |legs| > 0 && Ordered(legs)
    ensures var t, b := legs[|legs| - 1].Token(), legs[|legs| - 1].Bucket(p);
            var vols := Volumes(p, legs, t);
            |vols| > 0 && vols[|vols| - 1] == ValueIn(p, legs, t, b)
  {
    var t, b := legs[|legs| - 1].Token(), legs[|legs| - 1].Bucket(p);
    var bs := BucketsOf(p, legs, t);
    BeforeLast(p, legs);
    assert b in bs && forall k :: k in bs ==> k <= b;
    SortedIsAscending(bs);
    hide Ordered, Sorted, BucketsOf, ValueIn, Leg.Token, Leg.Bucket;
    var ks := Sorted(bs);
    var i :| 0 <= i < |ks| && ks[i] == b;
    assert ks[|ks| - 1] in bs;
  }

  // ----- collapses and spikes

  lemma SignalAlertsIff(p: Params, c: Core, leg: Leg)
    requires p.Ok()
    ensures |CollapseAlert(p, c, leg)| > 0 <==> Collapses(p, c, leg)
    ensures |SpikeAlert(p, c, leg)| > 0 <==> Spikes(p, c, leg)
  {
    hide Collapses, Spikes, BucketZ, Leg.Token;
  }

  lemma SignalsStep(p: Params, creators: map<string, string>, legs: seq<Leg>)
    requires p.Ok() && |legs| > 0
    ensures var before, leg := legs[..|legs| - 1], legs[|legs| - 1];
            var was, now, m := CoreRun(p, EMPTY, creators, before), CoreRun(p, EMPTY, creators, legs), Scene(p, creators, legs);
            && m.lastCollapse == was.lastCollapse && m.lastSpike == was.lastSpike
            && now.lastCollapse == (if Collapses(p, m, leg) then was.lastCollapse[leg.Token() := leg.Bucket(p)] else was.lastCollapse)
            && now.lastSpike == (if Spikes(p, m, leg) then was.lastSpike[leg.Token() := leg.Bucket(p)] else was.lastSpike)
  {
    hide Add, Write, Moved, Collapses, Spikes, Leg.Token, Leg.Bucket, Leg.Price;
  }

  lemma GetMoved(m: map<string, int>, t: string, b: int, u: string)
    ensures Get(m[t := b], u) == if u == t then Some(b) else Get(m, u)
  {
  }

  ghost predicate Marks(p: Params, creators: map<string, string>, legs: seq<Leg>, t: string)
    requires p.Ok()
  {
    var c := CoreRun(p, EMPTY, creators, legs);
    var fell, rose := LastTold(p, creators, legs, VolumeCollapse, t), LastTold(p, creators, legs, VolumeSpike, t);
    && Get(c.lastCollapse, t) == (if fell.Some? then Some(fell.value.Bucket(p)) else None)
    && Get(c.lastSpike, t) == (if rose.Some? then Some(rose.value.Bucket(p)) else None)
  }

  lemma NothingMarked(p: Params, creators: map<string, string>, t: string)
    requires p.Ok()
    ensures Marks(p, creators, [], t)
  {
  }

  lemma {:induction false} MarksAll(p: Params, creators: map<string, string>, legs: seq<Leg>, t: string)
    requires p.Ok()
    ensures Marks(p, creators, legs, t)
  {
    hide Reported, AlertsOf, CoreRun, Scene, Collapses, Spikes, CollapseAlert, SpikeAlert, Tells, Leg.Token, Leg.Bucket, Get;
    if |legs| == 0 {
      NothingMarked(p, creators, t);
      assert legs == [];
    } else {
      var before, leg := legs[..|legs| - 1], legs[|legs| - 1];
      MarksAll(p, creators, before, t);
      SignalsStep(p, creators, legs);
      SurgeAlertsAre(p, creators, legs);
      SignalAlertsIff(p, Scene(p, creators, legs), leg);
      KindsReported(p, creators, legs, VolumeCollapse);
      KindsReported(p, creators, legs, VolumeSpike);
      GetMoved(CoreRun(p, EMPTY, creators, before).lastCollapse, leg.Token(), leg.Bucket(p), t);
      GetMoved(CoreRun(p, EMPTY, creators, before).lastSpike, leg.Token(), leg.Bucket(p), t);
    }
  }

  /** The kind was reported for the token earlier in the bucket. */
  ghost predicate ToldIn(p: Params, creators: map<string, string>, legs: seq<Leg>, kind: Kind, t: string, b: int)
    requires p.Ok()
  {
    var told := LastTold(p, creators, legs, kind, t);
    told.Some? && told.value.Bucket(p) == b
  }

  lemma MarkedIff(p: Params, creators: map<string, string>, legs: seq<Leg>)
    requires p.Ok() && |legs| > 0
    ensures var before, t, b := legs[..|legs| - 1], legs[|legs| - 1].Token(), legs[|legs| - 1].Bucket(p);
            && (Get(Scene(p, creators, legs).lastCollapse, t) == Some(b) <==> ToldIn(p, creators, before, VolumeCollapse, t, b))
            && (Get(Scene(p, creators, legs).lastSpike, t) == Some(b) <==> ToldIn(p, creators, before, VolumeSpike, t, b))
  {
    hide CoreRun, Scene, LastTold, Collapses, Spikes, Leg.Token, Leg.Bucket, Get;
    MarksAll(p, creators, legs[..|legs| - 1], legs[|legs| - 1].Token());
    SignalsStep(p, creators, legs);
  }

  lemma CollapseIs(p: Params, c: Core, leg: Leg)
    requires p.Ok()
    ensures var z, mine := BucketZ(p, c, leg), CollapseAlert(p, c, leg);
            && (|mine| > 0 <==> z.Some? && z.value <= p.zThreshold && Get(c.lastCollapse, leg.Token()) != Some(leg.Bucket(p)))
            && forall a :: a in mine ==>
                 a == Alert(leg.Token(), VolumeCollapse, if p.round3(z.value) <= -3.0 then High else Medium, leg.block, None, None, None)
  {
    hide BucketZ, Get, Leg.Token, Leg.Bucket;
  }

  lemma ScoreNow(p: Params, creators: map<string, string>, legs: seq<Leg>)
    requires p.Ok() && |legs| > 0 && Ordered(legs)
    ensures BucketZ(p, Scene(p, creators, legs), legs[|legs| - 1]) == Score(p, legs, legs[|legs| - 1].Token())
  {
    hide *;
    ZScoreIsExact(p, creators, legs);
    LastZIsScore(p, legs, legs[|legs| - 1].Token());
  }

  /** A bucket whose volume scores so low is reported, once. */
  lemma CollapseIff(p: Params, creators: map<string, string>, legs: seq<Leg>)
    requires p.Ok() && |legs| > 0 && Ordered(legs)
    ensures var before, leg := legs[..|legs| - 1], legs[|legs| - 1];
            var t, b := leg.Token(), leg.Bucket(p);
            var z := Score(p, legs, t);
            && (Tells(Reported(p, creators, legs), VolumeCollapse)
                <==> z.Some? && z.value <= p.zThreshold && !ToldIn(p, creators, before, VolumeCollapse, t, b))
            && forall a :: a in Reported(p, creators, legs) && a.kind == VolumeCollapse ==>
                 z.Some? && a == Alert(t, VolumeCollapse, if p.round3(z.value) <= -3.0 then High else Medium, leg.block, None, None, None)
  {
    hide *;
    KindsReported(p, creators, legs, VolumeCollapse);
    SurgeAlertsAre(p, creators, legs);
    ScoreNow(p, creators, legs);
    MarkedIff(p, creators, legs);
    CollapseIs(p, Scene(p, creators, legs), legs[|legs| - 1]);
  }

  lemma SpikeIs(p: Params, c: Core, leg: Leg)
    requires p.Ok()
    ensures var z, mine := BucketZ(p, c, leg), SpikeAlert(p, c, leg);
            var bought, sold := Recent(p, c.buys, leg), Recent(p, c.sells, leg);
            && (|mine| > 0 <==> && z.Some? && z.value >= p.spikeZ && At(Of(c.volume, leg.Token()), leg.Bucket(p)) >= p.minSpike
                                && PriceUp(p, c, leg) && bought > 0.0 && bought >= sold * p.spikeMinBuyRatio
                                && Get(c.lastSpike, leg.Token()) != Some(leg.Bucket(p)))
            && forall a :: a in mine ==>
                 a == Alert(leg.Token(), VolumeSpike, if p.round3(z.value) >= p.spikeZ + 1.0 then High else Medium, leg.block, None, None, None)
  {
    hide BucketZ, Get, Recent, At, Of, PriceUp, Leg.Token, Leg.Bucket;
  }

  lemma FlowsAre(p: Params, creators: map<string, string>, legs: seq<Leg>)
    requires p.Ok() && |legs| > 0 && Ordered(legs) && p.lookback != 1
    ensures var leg, m := legs[|legs| - 1], Scene(p, creators, legs);
            var t, b := leg.Token(), leg.Bucket(p);
            && Recent(p, m.buys, leg) == ValueSince(p, legs, t, Some(Buy), b - 6)
            && Recent(p, m.sells, leg) == ValueSince(p, legs, t, Some(Sell), b - 6)
            && At(Of(m.volume, t), b) == ValueIn(p, legs, t, b) && (PriceUp(p, m, leg) <==> Rose(p, legs, t, b))
  {
    hide *;
    var leg := legs[|legs| - 1];
    var t, b := leg.Token(), leg.Bucket(p);
    ReadsAreFull(p, creators, legs);
    FullReadsAre(p, legs);
    ReadsAre(p, Scene(p, creators, legs), leg);
    TradedIsValue(p, legs, t, Some(Buy), b - 6);
    TradedIsValue(p, legs, t, Some(Sell), b - 6);
    TradedIs(p, legs, t);
    RoseIff(p, legs, t, b);
  }

  lemma ReadsAre(p: Params, c: Core, leg: Leg)
    requires p.Ok()
    ensures var r := ReadsOf(p, c, leg);
            && r.buys == Recent(p, c.buys, leg) && r.sells == Recent(p, c.sells, leg)
            && r.now == At(Of(c.volume, leg.Token()), leg.Bucket(p)) && r.up == PriceUp(p, c, leg)
  {
    hide Recent, PriceUp, BucketZ, At, Of;
  }

  lemma FullReadsAre(p: Params, legs: seq<Leg>)
    requires p.Ok() && |legs| > 0
    ensures var t, b, r := legs[|legs| - 1].Token(), legs[|legs| - 1].Bucket(p), FullReads(p, legs);
            && r.buys == SumFrom(Traded(p, legs, t, Some(Buy)), b - 6) && r.sells == SumFrom(Traded(p, legs, t, Some(Sell)), b - 6)
            && r.now == At(Traded(p, legs, t, None), b) && r.up == RisenSince(p, Priced(p, legs, t), b)
  {
    hide SumFrom, Traded, LastZ, At, RisenSince, Priced, Leg.Token, Leg.Bucket;
  }

  /** A bucket whose volume scores so high is reported, once, if it is large, the price
      is up and buyers outweigh sellers over seven buckets. */
  lemma SpikeIff(p: Params, creators: map<string, string>, legs: seq<Leg>)
    requires p.Ok() && |legs| > 0 && Ordered(legs)
    ensures var before, leg := legs[..|legs| - 1], legs[|legs| - 1];
            var t, b := leg.Token(), leg.Bucket(p);
            var z := Score(p, legs, t);
            var bought, sold := ValueSince(p, legs, t, Some(Buy), b - 6), ValueSince(p, legs, t, Some(Sell), b - 6);
            && (Tells(Reported(p, creators, legs), VolumeSpike)
                <==> && z.Some? && z.value >= p.spikeZ && ValueIn(p, legs, t, b) >= p.minSpike && Rose(p, legs, t, b)
                     && bought > 0.0 && bought >= sold * p.spikeMinBuyRatio && !ToldIn(p, creators, before, VolumeSpike, t, b))
            && forall a :: a in Reported(p, creators, legs) && a.kind == VolumeSpike ==>
                 z.Some? && a == Alert(t, VolumeSpike, if p.round3(z.value) >= p.spikeZ + 1.0 then High else Medium, leg.block, None, None, None)
  {
    hide *;
    KindsReported(p, creators, legs, VolumeSpike);
    SurgeAlertsAre(p, creators, legs);
    ScoreNow(p, creators, legs);
    MarkedIff(p, creators, legs);
    if Score(p, legs, legs[|legs| - 1].Token()).Some? {
      ScoreNeedsThree(p, legs, legs[|legs| - 1].Token());
      FlowsAre(p, creators, legs);
    }
    SpikeIs(p, Scene(p, creators, legs), legs[|legs| - 1]);
  }

  lemma ScoreNeedsThree(p: Params, legs: seq<Leg>, t: string)
    requires p.Ok() && Score(p, legs, t).Some?
    ensures |Volumes(p, legs, t)| > 0 && 3 <= |Window(p, legs, t)| <= p.lookback
    ensures Score(p, legs, t) == ZScore(Window(p, legs, t), Volumes(p, legs, t)[|Volumes(p, legs, t)| - 1], p.sqrt)
  {
    hide Volumes, Deviation, Mean;
  }

  /** A collapse is a fall: with a negative threshold the bucket's volume is below the
      mean of at least three buckets before it. */
  lemma CollapseIsFall(p: Params, creators: map<string, string>, legs: seq<Leg>)
    requires p.Ok() && |legs| > 0 && Ordered(legs) && Root(p.sqrt) && p.zThreshold < 0.0
    requires Tells(Reported(p, creators, legs), VolumeCollapse)
    ensures var t, b := legs[|legs| - 1].Token(), legs[|legs| - 1].Bucket(p);
            && |Volumes(p, legs, t)| > 0 && 3 <= |Window(p, legs, t)| <= p.lookback
            && |Window(p, legs, t)| as real * ValueIn(p, legs, t, b) < Total(Window(p, legs, t))
  {
    hide *;
    CollapseIff(p, creators, legs);
    NewestIsNow(p, legs);
    ScoreNeedsThree(p, legs, legs[|legs| - 1].Token());
    ScoreTells(Window(p, legs, legs[|legs| - 1].Token()), ValueIn(p, legs, legs[|legs| - 1].Token(), legs[|legs| - 1].Bucket(p)), p.sqrt);
  }

  /** A spike is a rise: with a positive threshold it is above that mean. */
  lemma SpikeIsRise(p: Params, creators: map<string, string>, legs: seq<Leg>)
    requires p.Ok() && |legs| > 0 && Ordered(legs) && Root(p.sqrt) && p.spikeZ > 0.0
    requires Tells(Reported(p, creators, legs), VolumeSpike)
    ensures var t, b := legs[|legs| - 1].Token(), legs[|legs| - 1].Bucket(p);
            && |Volumes(p, legs, t)| > 0 && 3 <= |Window(p, legs, t)| <= p.lookback
            && |Window(p, legs, t)| as real * ValueIn(p, legs, t, b) > Total(Window(p, legs, t))
  {
    hide *;
    SpikeIff(p, creators, legs);
    NewestIsNow(p, legs);
    ScoreNeedsThree(p, legs, legs[|legs| - 1].Token());
    ScoreTells(Window(p, legs, legs[|legs| - 1].Token()), ValueIn(p, legs, legs[|legs| - 1].Token(), legs[|legs| - 1].Bucket(p)), p.sqrt);
  }
}
