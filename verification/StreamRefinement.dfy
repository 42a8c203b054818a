/** The pruned alert engine against the simple one that keeps every bucket for ever. */
module StreamRefinement {
  import opened Options
  import opened Series
  import opened StreamAlerts
  import opened StreamHistory

  /** The engine without pruning. */
  function Simple(p: Params): Params {
    p.(pruned := false)
  }

  /** Everything the rules read off the caches for one leg. */
  datatype Reads = Reads(volume: real, buys: real, sells: real, now: real, up: bool, z: Option<real>)

  function ReadsOf(p: Params, c: Core, leg: Leg): Reads
    requires p.Ok()
  {
    Reads(Recent(p, c.volume, leg), Recent(p, c.buys, leg), Recent(p, c.sells, leg),
          At(Of(c.volume, leg.Token()), leg.Bucket(p)), PriceUp(p, c, leg), BucketZ(p, c, leg))
  }

  /** The same, read off the full history up to the last leg. */
  function FullReads(p: Params, legs: seq<Leg>): Reads
    requires p.Ok() && |legs| > 0
  {
    var leg := legs[|legs| - 1];
    var t, b := leg.Token(), leg.Bucket(p);
    var volume := Traded(p, legs, t, None);
    Reads(SumFrom(volume, b - 6), SumFrom(Traded(p, legs, t, Some(Buy)), b - 6), SumFrom(Traded(p, legs, t, Some(Sell)), b - 6),
          At(volume, b), RisenSince(p, Priced(p, legs, t), b), LastZ(volume, p.lookback, p.sqrt))
  }

  /** Whatever is kept, every read is that of the full history, unless too few buckets
      are kept for the seven-bucket sums. */
  lemma ReadsAreFull(p: Params, creators: map<string, string>, legs: seq<Leg>)
    requires p.Ok() && |legs| > 0 && Ordered(legs) && p.lookback != 1
    ensures ReadsOf(p, Scene(p, creators, legs), legs[|legs| - 1]) == FullReads(p, legs)
  {
    hide BucketZ, LastZ, PriceUp, RisenSince, Scene, Traded, Priced, SumFrom, Newest, Leg.Token, Leg.Bucket, At, Ordered;
    SceneCaches(p, creators, legs);
    ZScoreIsExact(p, creators, legs);
    PriceUpIsExact(p, creators, legs);
    RecentIsExact(p, legs, None);
    RecentIsExact(p, legs, Some(Buy));
    RecentIsExact(p, legs, Some(Sell));
    VolumeNow(p, legs);
  }

  lemma {:induction false} SameHistory(p: Params, legs: seq<Leg>, t: string, side: Option<Side>)
    requires p.Ok()
    ensures Traded(Simple(p), legs, t, side) == Traded(p, legs, t, side) && Priced(Simple(p), legs, t) == Priced(p, legs, t)
  {
    if |legs| > 0 {
      SameHistory(p, legs[..|legs| - 1], t, side);
      hide Leg.Token, Leg.Price;
    }
  }

  /** The full history does not depend on pruning. */
  lemma SameFullReads(p: Params, legs: seq<Leg>)
    requires p.Ok() && |legs| > 0
    ensures FullReads(Simple(p), legs) == FullReads(p, legs)
  {
    hide Traded, Priced, SumFrom, LastZ, At, RisenSince, Leg.Token;
    var leg := legs[|legs| - 1];
    SameHistory(p, legs, leg.Token(), None);
    SameHistory(p, legs, leg.Token(), Some(Buy));
    SameHistory(p, legs, leg.Token(), Some(Sell));
    SameRise(p, Priced(p, legs, leg.Token()), leg.Bucket(p));
  }

  lemma SameRise(p: Params, prices: Bucketed, b: int)
    ensures RisenSince(Simple(p), prices, b) == RisenSince(p, prices, b)
  {
    hide PastValue, At;
  }

  // ----- alerts and signals depend on the reads alone

  /** The parts of the state outside the caches. */
  predicate SameRest(c: Core, d: Core) {
    c.seen == d.seen && c.positions == d.positions && c.lastCollapse == d.lastCollapse && c.lastSpike == d.lastSpike
  }

  lemma SignalsAgree(p: Params, c: Core, d: Core, leg: Leg)
    requires p.Ok() && SameRest(c, d) && ReadsOf(p, c, leg) == ReadsOf(Simple(p), d, leg)
    ensures Collapses(p, c, leg) == Collapses(Simple(p), d, leg) && Spikes(p, c, leg) == Spikes(Simple(p), d, leg)
    ensures CollapseAlert(p, c, leg) == CollapseAlert(Simple(p), d, leg) && SpikeAlert(p, c, leg) == SpikeAlert(Simple(p), d, leg)
  {
    hide Recent, PriceUp, BucketZ, At, Of, Leg.Token;
  }

  lemma TradesAgree(p: Params, c: Core, d: Core, creators: map<string, string>, leg: Leg)
    requires p.Ok() && c.positions == d.positions
    requires Recent(p, c.volume, leg) == Recent(Simple(p), d.volume, leg) && PriceUp(p, c, leg) == PriceUp(Simple(p), d, leg)
    ensures DevSellAlert(p, c, creators, leg) == DevSellAlert(Simple(p), d, creators, leg)
    ensures LargeSellAlert(p, c, creators, leg) == LargeSellAlert(Simple(p), d, creators, leg)
    ensures WhaleBuyAlert(p, c, leg) == WhaleBuyAlert(Simple(p), d, leg)
  {
    hide Recent, PriceUp, IsSignificantSell, SeverityFor, PctOfPosition, Leg.Token, Leg.Wallet, ByCreator, CreatorOf,
         DevSellAlert;
    DevSellsAgree(p, c, d, creators, leg);
  }

  lemma DevSellsAgree(p: Params, c: Core, d: Core, creators: map<string, string>, leg: Leg)
    requires p.Ok() && c.positions == d.positions && Recent(p, c.volume, leg) == Recent(Simple(p), d.volume, leg)
    ensures DevSellAlert(p, c, creators, leg) == DevSellAlert(Simple(p), d, creators, leg)
  {
    hide Recent, DevSellFrom;
  }

  /** Entering a leg and moving the creator's position keep the rest alike. */
  lemma RestAgrees(p: Params, c: Core, d: Core, creators: map<string, string>, leg: Leg)
    requires p.Ok() && SameRest(c, d)
    ensures SameRest(Record(p, c, leg), Record(Simple(p), d, leg))
    ensures SameRest(MovePosition(Record(p, c, leg), creators, leg), MovePosition(Record(Simple(p), d, leg), creators, leg))
  {
    hide Add, Write, Moved, Leg.Token, Leg.Price;
  }

  lemma SignalledAgree(p: Params, c: Core, d: Core, leg: Leg)
    requires p.Ok() && SameRest(c, d) && ReadsOf(p, c, leg) == ReadsOf(Simple(p), d, leg)
    ensures SameRest(Signalled(p, c, leg), Signalled(Simple(p), d, leg))
  {
    hide Collapses, Spikes, ReadsOf, Leg.Token, Leg.Bucket, CollapseAlert, SpikeAlert;
    SignalsAgree(p, c, d, leg);
    SameBuckets(p, leg);
  }

  lemma SameBuckets(p: Params, leg: Leg)
    requires p.Ok()
    ensures leg.Bucket(Simple(p)) == leg.Bucket(p)
  {
  }

  // ----- the refinement

  /** Positions move after the caches are entered, and leave the reads alone. */
  lemma ReadsBeforeMove(p: Params, c: Core, creators: map<string, string>, leg: Leg)
    requires p.Ok()
    ensures Recent(p, MovePosition(c, creators, leg).volume, leg) == Recent(p, c.volume, leg)
    ensures PriceUp(p, MovePosition(c, creators, leg), leg) == PriceUp(p, c, leg)
  {
    hide Recent, RisenSince, Moved;
  }

  /** The two engines agree on each of the six kinds, and on whether volume collapses. */
  ghost predicate SameAlerts(p: Params, c: Core, d: Core, creators: map<string, string>, leg: Leg)
    requires p.Ok()
  {
    var q := Simple(p);
    var rc, rd := Record(p, c, leg), Record(q, d, leg);
    var mc, md := MovePosition(rc, creators, leg), MovePosition(rd, creators, leg);
    && GraduationAlert(c, leg) == GraduationAlert(d, leg)
    && DevSellAlert(p, rc, creators, leg) == DevSellAlert(q, rd, creators, leg)
    && LargeSellAlert(p, rc, creators, leg) == LargeSellAlert(q, rd, creators, leg)
    && WhaleBuyAlert(p, rc, leg) == WhaleBuyAlert(q, rd, leg)
    && CollapseAlert(p, mc, leg) == CollapseAlert(q, md, leg) && SpikeAlert(p, mc, leg) == SpikeAlert(q, md, leg)
    && Collapses(p, mc, leg) == Collapses(q, md, leg)
  }

  /** One leg: from states alike outside the caches, both engines report the same and
      stay alike. */
  lemma LegRefines(p: Params, creators: map<string, string>, legs: seq<Leg>)
    requires p.Ok() && |legs| > 0 && Ordered(legs) && p.lookback != 1
    requires var before := legs[..|legs| - 1];
             SameRest(CoreRun(p, EMPTY, creators, before), CoreRun(Simple(p), EMPTY, creators, before))
    ensures var before, leg := legs[..|legs| - 1], legs[|legs| - 1];
            var c, d := CoreRun(p, EMPTY, creators, before), CoreRun(Simple(p), EMPTY, creators, before);
            && SameAlerts(p, c, d, creators, leg) && CoreAlerts(p, c, creators, leg) == CoreAlerts(Simple(p), d, creators, leg)
            && SameRest(CoreStep(p, c, creators, leg), CoreStep(Simple(p), d, creators, leg))
  {
    hide CoreRun, Record, MovePosition, Signalled, ReadsOf, FullReads, SameRest, GraduationAlert, DevSellAlert, LargeSellAlert,
         WhaleBuyAlert, CollapseAlert, SpikeAlert, Collapses;
    var before, leg, q := legs[..|legs| - 1], legs[|legs| - 1], Simple(p);
    var c, d := CoreRun(p, EMPTY, creators, before), CoreRun(q, EMPTY, creators, before);
    var rc, rd := Record(p, c, leg), Record(q, d, leg);
    var mc, md := MovePosition(rc, creators, leg), MovePosition(rd, creators, leg);
    ReadsAreFull(p, creators, legs);
    ReadsAreFull(q, creators, legs);
    SameFullReads(p, legs);
    RestAgrees(p, c, d, creators, leg);
    SignalsAgree(p, mc, md, leg);
    SignalledAgree(p, mc, md, leg);
    ReadsBeforeMove(p, rc, creators, leg);
    ReadsBeforeMove(q, rd, creators, leg);
    ReadsGive(p, mc, leg);
    ReadsGive(q, md, leg);
    RestGives(c, d);
    RestGives(rc, rd);
    TradesAgree(p, rc, rd, creators, leg);
    SameGraduation(c, d, leg);
  }

  lemma ReadsGive(p: Params, c: Core, leg: Leg)
    requires p.Ok()
    ensures ReadsOf(p, c, leg).volume == Recent(p, c.volume, leg) && ReadsOf(p, c, leg).up == PriceUp(p, c, leg)
  {
    hide Recent, PriceUp, BucketZ, At, Of;
  }

  lemma RestGives(c: Core, d: Core)
    requires SameRest(c, d)
    ensures c.positions == d.positions && c.seen == d.seen
  {
  }

  lemma SameGraduation(c: Core, d: Core, leg: Leg)
    requires c.seen == d.seen
    ensures GraduationAlert(c, leg) == GraduationAlert(d, leg)
  {
    hide Leg.Token;
  }

  /** The main law: on every block-ordered run the engine with its pruned caches reports
      exactly the graduation, dev_sell, large_sell, whale_buy, volume_collapse and
      volume_spike alerts of the engine that keeps every bucket for ever. */
  lemma {:induction false} PrunedIsSimple(p: Params, creators: map<string, string>, legs: seq<Leg>)
    requires p.Ok() && Ordered(legs) && p.lookback != 1
    ensures RunAlerts(p, EMPTY, creators, legs) == RunAlerts(Simple(p), EMPTY, creators, legs)
    ensures SameRest(CoreRun(p, EMPTY, creators, legs), CoreRun(Simple(p), EMPTY, creators, legs))
  {
    hide CoreStep, CoreAlerts, SameRest;
    if |legs| == 0 {
      AlikeAtStart();
    } else {
      PrunedIsSimple(p, creators, legs[..|legs| - 1]);
      LegRefines(p, creators, legs);
    }
  }

  lemma SurgesByPrice(p: Params, c: Core, d: Core, surge: map<string, int>, leg: Leg)
    requires p.Ok()
    requires PastPrice(p, Of(c.prices, leg.Token()), leg.Bucket(p))
          == PastPrice(Simple(p), Of(d.prices, leg.Token()), leg.Bucket(Simple(p)))
    ensures Surges(p, c, surge, leg) == Surges(Simple(p), d, surge, leg)
    ensures SurgeAlert(p, c, surge, leg) == SurgeAlert(Simple(p), d, surge, leg)
  {
    hide PastPrice, Of, Leg.Token, Leg.Price;
  }

  lemma SamePast(p: Params, prices: Bucketed, b: int)
    ensures PastPrice(Simple(p), prices, b) == PastPrice(p, prices, b)
  {
  }

  lemma SurgesAgree(p: Params, creators: map<string, string>, legs: seq<Leg>, surge: map<string, int>)
    requires p.Ok() && |legs| > 0 && Ordered(legs)
    ensures var leg, c, d := legs[|legs| - 1], Scene(p, creators, legs), Scene(Simple(p), creators, legs);
            && Surges(p, c, surge, leg) == Surges(Simple(p), d, surge, leg)
            && SurgeAlert(p, c, surge, leg) == SurgeAlert(Simple(p), d, surge, leg)
  {
    hide PastPrice, Scene, Priced, Traded, Surges, SurgeAlert, Of, Ordered, Leg.Token, Leg.Bucket, Leg.Price;
    var leg := legs[|legs| - 1];
    PastPriceIsExact(p, creators, legs);
    PastPriceIsExact(Simple(p), creators, legs);
    SameHistory(p, legs, leg.Token(), None);
    SameBuckets(p, leg);
    SamePast(p, Priced(p, legs, leg.Token()), leg.Bucket(p));
    SurgesByPrice(p, Scene(p, creators, legs), Scene(Simple(p), creators, legs), surge, leg);
  }

  lemma CompoundsAgree(p: Params, c: Core, d: Core, sold: map<string, int>, leg: Leg)
    requires p.Ok() && Collapses(p, c, leg) == Collapses(Simple(p), d, leg)
    ensures CompoundAlert(p, c, sold, leg) == CompoundAlert(Simple(p), d, sold, leg)
  {
    hide Collapses, Leg.Token;
  }

  /** One leg, with what emitting remembers: all eight kinds agree, and so does the memory. */
  lemma LiveLegRefines(p: Params, creators: map<string, string>, legs: seq<Leg>, mem: Memory)
    requires p.Ok() && |legs| > 0 && Ordered(legs)
    requires var before, leg := legs[..|legs| - 1], legs[|legs| - 1];
             SameAlerts(p, CoreRun(p, EMPTY, creators, before), CoreRun(Simple(p), EMPTY, creators, before), creators, leg)
    ensures var before, leg := legs[..|legs| - 1], legs[|legs| - 1];
            var c, d := CoreRun(p, EMPTY, creators, before), CoreRun(Simple(p), EMPTY, creators, before);
            && Remember(p, c, mem, creators, leg) == Remember(Simple(p), d, mem, creators, leg)
            && AllAlerts(p, c, mem, creators, leg) == AllAlerts(Simple(p), d, mem, creators, leg)
  {
    hide CoreRun, Record, MovePosition, Surges, SurgeAlert, CompoundAlert, Collapses, GraduationAlert, DevSellAlert,
         LargeSellAlert, WhaleBuyAlert, CollapseAlert, SpikeAlert, Leg.Token, Leg.Bucket;
    var before, leg := legs[..|legs| - 1], legs[|legs| - 1];
    var c, d := CoreRun(p, EMPTY, creators, before), CoreRun(Simple(p), EMPTY, creators, before);
    SameBuckets(p, leg);
    SurgesAgree(p, creators, legs, mem.surge);
    CompoundsAgree(p, Scene(p, creators, legs), Scene(Simple(p), creators, legs), Remember(p, c, mem, creators, leg).devSell, leg);
  }

  /** On a run that emits throughout, the two engines report the same alerts of all
      eight kinds, in the same order. */
  lemma {:induction false} LiveIsSimple(p: Params, creators: map<string, string>, legs: seq<Leg>)
    requires p.Ok() && Ordered(legs) && p.lookback != 1
    ensures LiveRun(p, EMPTY, NO_MEMORY, creators, legs) == LiveRun(Simple(p), EMPTY, NO_MEMORY, creators, legs)
  {
    if |legs| > 0 {
      var before := legs[..|legs| - 1];
      LiveIsSimple(p, creators, before);
      PrunedIsSimple(p, creators, before);
      hide CoreRun, CoreStep, CoreAlerts, SameRest, SameAlerts, AllAlerts, Remember, RunAlerts;
      LegRefines(p, creators, legs);
      LiveLegRefines(p, creators, legs, LiveRun(p, EMPTY, NO_MEMORY, creators, before).0);
    }
  }

  /** Of all that is reported, the six kinds are those of RunAlerts. */
  lemma {:induction false} LiveCoreOnly(p: Params, creators: map<string, string>, legs: seq<Leg>)
    requires p.Ok()
    ensures CoreOnly(LiveRun(p, EMPTY, NO_MEMORY, creators, legs).1) == RunAlerts(p, EMPTY, creators, legs)
  {
    if |legs| == 0 {
      CoreOnlyNone();
    } else {
      var before, leg := legs[..|legs| - 1], legs[|legs| - 1];
      LiveCoreOnly(p, creators, before);
      hide CoreOnly, CoreRun, CoreAlerts, AllAlerts, Remember;
      var (mem, alerts) := LiveRun(p, EMPTY, NO_MEMORY, creators, before);
      var c := CoreRun(p, EMPTY, creators, before);
      CoreOnlyConcat(alerts, AllAlerts(p, c, mem, creators, leg));
      CoreOnlyOfAlerts(p, c, mem, creators, leg);
    }
  }

  lemma AlikeAtStart()
    ensures SameRest(EMPTY, EMPTY)
  {
  }

  // ----- only lookback 1 keeps too little

  /** Parameters with lookback 1 under which a sale of 1 is large next to a recent
      volume of 4, and not next to 5. */
  const TIGHT := Params(1, 1, 0.0, 0, 0.0, 0.0, 0.0, 1.0, 0.25, 0.0, 0.0, 0.0, 0.0, (x: real) => x, (x: real) => x, true)

  const SALE := Leg("t", "w", 4, 1.0, 1.0, Sell)

  /** Four buys in four buckets, then a sale in a fifth. */
  function FiveLegs(): seq<Leg> {
    OnePerBucket(TIGHT, 4) + [SALE]
  }

  lemma LargeSellsAlone(p: Params, c: Core, creators: map<string, string>, leg: Leg)
    requires p.Ok()
    ensures Tells(CoreAlerts(p, c, creators, leg), LargeSell) <==> |LargeSellAlert(p, Record(p, c, leg), creators, leg)| > 0
  {
    hide Record, MovePosition, DevSellAlert, LargeSellAlert, WhaleBuyAlert, GraduationAlert, Collapses, Spikes, BucketZ, Leg.Token;
    FourKinds(p, c, creators, leg);
    FourKinds(p, Record(p, c, leg), creators, leg);
    var large := LargeSellAlert(p, Record(p, c, leg), creators, leg);
    if |large| > 0 { assert large[0] in CoreAlerts(p, c, creators, leg); }
  }

  lemma TellsMore(a: seq<Alert>, b: seq<Alert>, kind: Kind)
    ensures Tells(a + b, kind) <==> Tells(a, kind) || Tells(b, kind)
  {
    assert forall x :: x in a + b <==> x in a || x in b;
  }

  lemma BuyIsNoLargeSell(p: Params, c: Core, leg: Leg)
    requires p.Ok() && leg.side == Buy
    ensures !Tells(CoreAlerts(p, c, map[], leg), LargeSell)
  {
    hide CoreAlerts, Record, Tells;
    LargeSellsAlone(p, c, map[], leg);
  }

  lemma NoAlertsYet(p: Params)
    requires p.Ok()
    ensures !Tells(RunAlerts(p, EMPTY, map[], []), LargeSell)
  {
  }

  lemma RunAlertsMore(p: Params, legs: seq<Leg>, leg: Leg)
    requires p.Ok()
    ensures RunAlerts(p, EMPTY, map[], legs + [leg])
         == RunAlerts(p, EMPTY, map[], legs) + CoreAlerts(p, CoreRun(p, EMPTY, map[], legs), map[], leg)
  {
    hide CoreAlerts, CoreRun;
    assert (legs + [leg])[..|legs|] == legs;
  }

  lemma {:induction false} BuysTellNoLargeSell(p: Params, n: nat)
    requires p.Ok()
    ensures !Tells(RunAlerts(p, EMPTY, map[], OnePerBucket(p, n)), LargeSell)
  {
    hide *;
    if n == 0 {
      NoAlertsYet(p);
      NthMore(p, 0);
    } else {
      var before, leg := OnePerBucket(p, n - 1), Nth(p, n - 1);
      NthMore(p, n);
      BuysTellNoLargeSell(p, n - 1);
      BuyIsNoLargeSell(p, CoreRun(p, EMPTY, map[], before), leg);
      RunAlertsMore(p, before, leg);
      TellsMore(RunAlerts(p, EMPTY, map[], before), CoreAlerts(p, CoreRun(p, EMPTY, map[], before), map[], leg), LargeSell);
    }
  }

  lemma NthMore(p: Params, n: nat)
    ensures OnePerBucket(p, n) == if n == 0 then [] else OnePerBucket(p, n - 1) + [Nth(p, n - 1)]
    ensures n > 0 ==> Nth(p, n - 1).side == Buy
  {
  }

  lemma FiveOrdered()
    ensures Ordered(FiveLegs()) && |FiveLegs()| == 5 && FiveLegs()[4] == SALE && FiveLegs()[..4] == OnePerBucket(TIGHT, 4)
  {
    OnePerBucketIs(TIGHT, 4);
    OnePerBucketOrdered(TIGHT, 4);
    var legs := FiveLegs();
    assert legs[..4] == OnePerBucket(TIGHT, 4);
    forall i | 0 <= i < 4 ensures legs[i] == Nth(TIGHT, i) {}
  }

  lemma FiveTraded(p: Params)
    requires p == TIGHT || p == Simple(TIGHT)
    ensures Ones(Traded(p, FiveLegs(), SALE.Token(), None), 5) && SALE.Token() == "t" && SALE.Bucket(p) == 4
  {
    FiveOrdered();
    SameHistory(TIGHT, FiveLegs(), SALE.Token(), None);
    OnePerBucketTraded(TIGHT, 4);
    assert Nth(TIGHT, 0).Token() == SALE.Token();
    OneMore(Traded(TIGHT, OnePerBucket(TIGHT, 4), SALE.Token(), None), 4);
    hide OnePerBucket, Ones, Bump;
  }

  /** The recent volume at the sale: four of the five buckets when pruned, else all. */
  lemma FiveRecent(p: Params)
    requires p == TIGHT || p == Simple(TIGHT)
    ensures Recent(p, Record(p, CoreRun(p, EMPTY, map[], OnePerBucket(TIGHT, 4)), SALE).volume, SALE)
         == if p.pruned then 4.0 else 5.0
  {
    FiveOrdered();
    FiveTraded(p);
    SceneCaches(p, map[], FiveLegs());
    hide Record, CoreRun, Traded, Ones, SumFrom, Newest, OnePerBucket, FiveLegs, Leg.Token, Leg.Bucket, MovePosition;
    SumCountsOnes(Traded(p, FiveLegs(), SALE.Token(), None), p.Keep(), 5, -2);
    ReadsBeforeMove(p, Record(p, CoreRun(p, EMPTY, map[], OnePerBucket(TIGHT, 4)), SALE), map[], SALE);
  }

  lemma SaleIsLarge(p: Params)
    requires p == TIGHT || p == Simple(TIGHT)
    ensures |LargeSellAlert(p, Record(p, CoreRun(p, EMPTY, map[], OnePerBucket(TIGHT, 4)), SALE), map[], SALE)| > 0 <==> p.pruned
  {
    FiveRecent(p);
    assert SALE.Wallet() != "" by { assert |SALE.Wallet()| == 1; }
    hide Recent, Record, CoreRun, OnePerBucket, Leg.Wallet, Leg.Token;
  }

  /** With lookback 1 the pruned engine reports a sale as large that the engine with
      all buckets does not. */
  lemma PruningShows()
    ensures Ordered(FiveLegs())
    ensures RunAlerts(TIGHT, EMPTY, map[], FiveLegs()) != RunAlerts(Simple(TIGHT), EMPTY, map[], FiveLegs())
  {
    FiveOrdered();
    forall p | p == TIGHT || p == Simple(TIGHT)
      ensures Tells(RunAlerts(p, EMPTY, map[], FiveLegs()), LargeSell) <==> p.pruned
    {
      FiveTell(p);
    }
  }

  lemma FiveTell(p: Params)
    requires p == TIGHT || p == Simple(TIGHT)
    ensures Tells(RunAlerts(p, EMPTY, map[], FiveLegs()), LargeSell) <==> p.pruned
  {
    FiveOrdered();
    SameLegs(4);
    BuysTellNoLargeSell(p, 4);
    SaleIsLarge(p);
    hide CoreAlerts, CoreRun, Record, Tells, OnePerBucket, FiveLegs, LargeSellAlert;
    var before := OnePerBucket(TIGHT, 4);
    LargeSellsAlone(p, CoreRun(p, EMPTY, map[], before), map[], SALE);
    TellsMore(RunAlerts(p, EMPTY, map[], before), CoreAlerts(p, CoreRun(p, EMPTY, map[], before), map[], SALE), LargeSell);
  }

  lemma {:induction false} SameLegs(n: nat)
    ensures OnePerBucket(Simple(TIGHT), n) == OnePerBucket(TIGHT, n)
  {
    if n > 0 { SameLegs(n - 1); }
  }

  /** Pruning is invisible in the six kinds of alerts, for all other parameters, on
      every block-ordered run, if and only if lookback is not 1. */
  lemma PrunedIsSimpleIff(lookback: nat)
    ensures (forall p: Params, creators, legs :: p.Ok() && p.lookback == lookback && Ordered(legs) ==>
              RunAlerts(p, EMPTY, creators, legs) == RunAlerts(Simple(p), EMPTY, creators, legs))
       <==> lookback != 1
  {
    hide Ordered, RunAlerts, FiveLegs;
    if lookback != 1 {
      forall p: Params, creators, legs | p.Ok() && p.lookback == lookback && Ordered(legs)
        ensures RunAlerts(p, EMPTY, creators, legs) == RunAlerts(Simple(p), EMPTY, creators, legs)
      {
        PrunedIsSimple(p, creators, legs);
      }
    } else {
      PruningShows();
    }
  }

  /** The same for all eight kinds on runs that emit throughout. */
  lemma LiveIsSimpleIff(lookback: nat)
    ensures (forall p: Params, creators, legs :: p.Ok() && p.lookback == lookback && Ordered(legs) ==>
              LiveRun(p, EMPTY, NO_MEMORY, creators, legs) == LiveRun(Simple(p), EMPTY, NO_MEMORY, creators, legs))
       <==> lookback != 1
  {
    hide Ordered, RunAlerts, FiveLegs, LiveRun, CoreOnly;
    if lookback != 1 {
      forall p: Params, creators, legs | p.Ok() && p.lookback == lookback && Ordered(legs)
        ensures LiveRun(p, EMPTY, NO_MEMORY, creators, legs) == LiveRun(Simple(p), EMPTY, NO_MEMORY, creators, legs)
      {
        LiveIsSimple(p, creators, legs);
      }
    } else {
      PruningShows();
      LiveCoreOnly(TIGHT, map[], FiveLegs());
      LiveCoreOnly(Simple(TIGHT), map[], FiveLegs());
    }
  }
}
