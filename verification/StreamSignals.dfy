/** The once-per-bucket signals of the alert engine against the batch rules on the full history. */
module StreamSignals {
  import opened Options
  import opened Series
  import opened StreamAlerts
  import opened StreamHistory

  datatype Signal = Collapse | Spike

  function LastFired(c: Core, s: Signal): map<string, int> {
    if s == Collapse then c.lastCollapse else c.lastSpike
  }

  predicate Raises(p: Params, c: Core, leg: Leg, s: Signal)
    requires p.Ok()
  {
    if s == Collapse then Collapses(p, c, leg) else Spikes(p, c, leg)
  }

  /** The signal fires on leg i of a run from the empty state. */
  predicate Fires(p: Params, creators: map<string, string>, legs: seq<Leg>, i: nat, s: Signal)
    requires p.Ok() && i < |legs|
  {
    Raises(p, Scene(p, creators, legs[..i + 1]), legs[i], s)
  }

  // ----- the rules on the full history

  /** The batch rule: the newest bucket's z-score is at or below the threshold. */
  predicate BatchCollapse(p: Params, volume: Bucketed) {
    var z := LastZ(volume, p.lookback, p.sqrt);
    z.Some? && z.value <= p.zThreshold
  }

  predicate BatchSpike(p: Params, volume: Bucketed, prices: Bucketed, buys: Bucketed, sells: Bucketed, b: int) {
    var z := LastZ(volume, p.lookback, p.sqrt);
    var bought, sold := SumFrom(buys, b - 6), SumFrom(sells, b - 6);
    && z.Some? && z.value >= p.spikeZ && At(volume, b) >= p.minSpike
    && RisenSince(p, prices, b)
    && bought > 0.0 && bought >= sold * p.spikeMinBuyRatio
  }

  /** The rule of the last leg, read off the full history. */
  predicate Rule(p: Params, legs: seq<Leg>, s: Signal)
    requires p.Ok() && |legs| > 0
  {
    var leg := legs[|legs| - 1];
    var t := leg.Token();
    if s == Collapse then BatchCollapse(p, Traded(p, legs, t, None))
    else BatchSpike(p, Traded(p, legs, t, None), Priced(p, legs, t), Traded(p, legs, t, Some(Buy)),
                    Traded(p, legs, t, Some(Sell)), leg.Bucket(p))
  }

  /** The rule over the caches is the rule over the full history. */
  lemma RuleIsExact(p: Params, creators: map<string, string>, legs: seq<Leg>, s: Signal)
    requires p.Ok() && |legs| > 0 && Ordered(legs)
    ensures var leg := legs[|legs| - 1];
            Raises(p, Scene(p, creators, legs), leg, s)
            <==> Rule(p, legs, s) && Get(LastFired(Scene(p, creators, legs), s), leg.Token()) != Some(leg.Bucket(p))
  {
    hide BucketZ, LastZ, PriceUp, RisenSince, Scene, Traded, Priced, SumFrom, Newest, Leg.Token, Leg.Bucket, At, Ordered;
    ZScoreIsExact(p, creators, legs);
    if s == Spike && p.lookback == 1 {
      NoZScore(Traded(p, legs, legs[|legs| - 1].Token(), None), p.sqrt);
    } else if s == Spike {
      PriceUpIsExact(p, creators, legs);
      SceneCaches(p, creators, legs);
      RecentIsExact(p, legs, Some(Buy));
      RecentIsExact(p, legs, Some(Sell));
      VolumeNow(p, legs);
    }
  }

  /** A window of one earlier bucket gives no score. */
  lemma NoZScore(m: Bucketed, sqrt: real -> real)
    ensures LastZ(m, 1, sqrt) == None
  {
  }

  // ----- what the engine remembers of earlier signals

  lemma LastFiredStep(p: Params, creators: map<string, string>, legs: seq<Leg>, s: Signal)
    requires p.Ok() && |legs| > 0
    ensures var before, leg := LastFired(CoreRun(p, EMPTY, creators, legs[..|legs| - 1]), s), legs[|legs| - 1];
            && LastFired(Scene(p, creators, legs), s) == before
            && LastFired(CoreRun(p, EMPTY, creators, legs), s)
               == (if Fires(p, creators, legs, |legs| - 1, s) then before[leg.Token() := leg.Bucket(p)] else before)
  {
    hide Collapses, Spikes, Moved, Leg.Token, Leg.Bucket, Add, Write;
    assert legs[..|legs|] == legs;
  }

  lemma FiresInPrefix(p: Params, creators: map<string, string>, legs: seq<Leg>, n: nat, i: nat, s: Signal)
    requires p.Ok() && i < n <= |legs|
    ensures Fires(p, creators, legs[..n], i, s) == Fires(p, creators, legs, i, s)
  {
    hide Raises, Scene;
    assert legs[..n][..i + 1] == legs[..i + 1];
  }

  /** The remembered bucket is that of the latest firing for the token. */
  ghost predicate Remembers(p: Params, creators: map<string, string>, legs: seq<Leg>, s: Signal, t: string)
    requires p.Ok()
  {
    var last := Get(LastFired(CoreRun(p, EMPTY, creators, legs), s), t);
    && (last.Some? ==> exists j :: 0 <= j < |legs| && FiredFor(p, creators, legs, s, t, j) && legs[j].Bucket(p) == last.value)
    && (forall j :: 0 <= j < |legs| && FiredFor(p, creators, legs, s, t, j) ==> last.Some? && legs[j].Bucket(p) <= last.value)
  }

  predicate FiredFor(p: Params, creators: map<string, string>, legs: seq<Leg>, s: Signal, t: string, j: nat)
    requires p.Ok() && j < |legs|
  {
    legs[j].Token() == t && Fires(p, creators, legs, j, s)
  }

  lemma RemembersStep(p: Params, creators: map<string, string>, legs: seq<Leg>, s: Signal, t: string)
    requires p.Ok() && |legs| > 0
    requires var n := |legs| - 1;
             && Remembers(p, creators, legs[..n], s, t)
             && Get(LastFired(CoreRun(p, EMPTY, creators, legs), s), t)
                == (if FiredFor(p, creators, legs, s, t, n) then Some(legs[n].Bucket(p))
                    else Get(LastFired(CoreRun(p, EMPTY, creators, legs[..n]), s), t))
             && forall j :: 0 <= j < n ==>
                  && (FiredFor(p, creators, legs[..n], s, t, j) <==> FiredFor(p, creators, legs, s, t, j))
                  && legs[j].Bucket(p) <= legs[n].Bucket(p)
    ensures Remembers(p, creators, legs, s, t)
  {
    hide FiredFor, CoreRun, LastFired, Leg.Bucket;
    var n := |legs| - 1;
    var before := legs[..n];
    var last := Get(LastFired(CoreRun(p, EMPTY, creators, before), s), t);
    if !FiredFor(p, creators, legs, s, t, n) && last.Some? {
      var j :| 0 <= j < n && FiredFor(p, creators, before, s, t, j) && before[j].Bucket(p) == last.value;
      assert FiredFor(p, creators, legs, s, t, j);
    }
    forall j | 0 <= j < |legs| && j != n && FiredFor(p, creators, legs, s, t, j)
      ensures last.Some? && legs[j].Bucket(p) <= last.value
    {
      assert FiredFor(p, creators, before, s, t, j) && before[j].Bucket(p) == legs[j].Bucket(p);
    }
  }

  lemma OrderedPrefix(legs: seq<Leg>, n: nat)
    requires Ordered(legs) && n <= |legs|
    ensures Ordered(legs[..n])
  {
  }

  lemma FiredForPrefix(p: Params, creators: map<string, string>, legs: seq<Leg>, n: nat, j: nat, s: Signal, t: string)
    requires p.Ok() && j < n <= |legs|
    ensures FiredFor(p, creators, legs[..n], s, t, j) == FiredFor(p, creators, legs, s, t, j)
  {
    hide Fires, Leg.Token;
    FiresInPrefix(p, creators, legs, n, j, s);
  }

  lemma FiredForStep(p: Params, creators: map<string, string>, legs: seq<Leg>, s: Signal, t: string)
    requires p.Ok() && |legs| > 0
    ensures var n := |legs| - 1;
            Get(LastFired(CoreRun(p, EMPTY, creators, legs), s), t)
            == (if FiredFor(p, creators, legs, s, t, n) then Some(legs[n].Bucket(p))
                else Get(LastFired(CoreRun(p, EMPTY, creators, legs[..n]), s), t))
  {
    hide Fires, CoreRun, LastFired, Leg.Token, Leg.Bucket;
    LastFiredStep(p, creators, legs, s);
  }

  lemma {:induction false} RemembersAll(p: Params, creators: map<string, string>, legs: seq<Leg>, s: Signal, t: string)
    requires p.Ok() && Ordered(legs)
    ensures Remembers(p, creators, legs, s, t)
  {
    if |legs| > 0 {
      hide *;
      var n := |legs| - 1;
      OrderedPrefix(legs, n);
      RemembersAll(p, creators, legs[..n], s, t);
      FiredForStep(p, creators, legs, s, t);
      BeforeLast(p, legs);
      forall j | 0 <= j < n
        ensures FiredFor(p, creators, legs[..n], s, t, j) == FiredFor(p, creators, legs, s, t, j)
      {
        FiredForPrefix(p, creators, legs, n, j, s, t);
      }
      RemembersStep(p, creators, legs, s, t);
    }
  }

  /** Two legs of one token in one bucket. */
  predicate SameBucket(p: Params, legs: seq<Leg>, i: nat, j: nat)
    requires p.Ok() && i < |legs| && j < |legs|
  {
    legs[i].Token() == legs[j].Token() && legs[i].Bucket(p) == legs[j].Bucket(p)
  }

  /** The main law: on a block-ordered run a signal fires on a leg exactly when the
      batch rule holds on the full history up to that leg and the signal has not
      fired on an earlier leg of the same token and bucket. */
  lemma FiresIff(p: Params, creators: map<string, string>, legs: seq<Leg>, i: nat, s: Signal)
    requires p.Ok() && Ordered(legs) && i < |legs|
    ensures Fires(p, creators, legs, i, s)
       <==> Rule(p, legs[..i + 1], s)
            && forall j :: 0 <= j < i && SameBucket(p, legs, i, j) ==> !Fires(p, creators, legs, j, s)
  {
    var now, before := legs[..i + 1], legs[..i];
    var t, b := legs[i].Token(), legs[i].Bucket(p);
    assert now[..i] == before;
    RuleIsExact(p, creators, now, s);
    LastFiredStep(p, creators, now, s);
    RemembersAll(p, creators, before, s, t);
    BeforeLast(p, now);
    forall j | 0 <= j < i
      ensures FiredFor(p, creators, before, s, t, j) <==> legs[j].Token() == t && Fires(p, creators, legs, j, s)
      ensures before[j].Bucket(p) <= b
    {
      FiresInPrefix(p, creators, legs, i, j, s);
      assert now[j] == before[j];
    }
    FiresIffRemembered(p, creators, legs, i, s);
  }

  lemma FiresIffRemembered(p: Params, creators: map<string, string>, legs: seq<Leg>, i: nat, s: Signal)
    requires p.Ok() && i < |legs|
    requires var t, b := legs[i].Token(), legs[i].Bucket(p);
             var last := Get(LastFired(CoreRun(p, EMPTY, creators, legs[..i]), s), t);
             && Remembers(p, creators, legs[..i], s, t)
             && (Fires(p, creators, legs, i, s) <==> Rule(p, legs[..i + 1], s) && last != Some(b))
             && forall j :: 0 <= j < i ==>
                  && legs[..i][j].Bucket(p) <= b
                  && (FiredFor(p, creators, legs[..i], s, t, j) <==> legs[j].Token() == t && Fires(p, creators, legs, j, s))
    ensures Fires(p, creators, legs, i, s)
       <==> Rule(p, legs[..i + 1], s)
            && forall j :: 0 <= j < i && SameBucket(p, legs, i, j) ==> !Fires(p, creators, legs, j, s)
  {
    hide Fires, Rule, FiredFor, CoreRun, LastFired, Leg.Token, Leg.Bucket;
    var t, b, before := legs[i].Token(), legs[i].Bucket(p), legs[..i];
    var last := Get(LastFired(CoreRun(p, EMPTY, creators, before), s), t);
    if last == Some(b) {
      var j :| 0 <= j < i && FiredFor(p, creators, before, s, t, j) && before[j].Bucket(p) == b;
      assert SameBucket(p, legs, i, j) && Fires(p, creators, legs, j, s);
    }
  }

  // ----- the alerts are the signals

  /** A live leg reports a volume collapse exactly when the signal fires on it, a
      volume spike likewise. */
  lemma AlertsTellSignals(p: Params, creators: map<string, string>, legs: seq<Leg>, i: nat)
    requires p.Ok() && i < |legs|
    ensures var alerts := CoreAlerts(p, CoreRun(p, EMPTY, creators, legs[..i]), creators, legs[i]);
            && (Tells(alerts, VolumeCollapse) <==> Fires(p, creators, legs, i, Collapse))
            && (Tells(alerts, VolumeSpike) <==> Fires(p, creators, legs, i, Spike))
  {
    var now := legs[..i + 1];
    assert now[..|now| - 1] == legs[..i];
    KindsOfAlerts(p, CoreRun(p, EMPTY, creators, legs[..i]), creators, legs[i]);
    hide CoreAlerts, CoreRun, Collapses, Spikes, Record, MovePosition;
  }

  lemma KindsOfAlerts(p: Params, c: Core, creators: map<string, string>, leg: Leg)
    requires p.Ok()
    ensures var m := MovePosition(Record(p, c, leg), creators, leg);
            && (Tells(CoreAlerts(p, c, creators, leg), VolumeCollapse) <==> Collapses(p, m, leg))
            && (Tells(CoreAlerts(p, c, creators, leg), VolumeSpike) <==> Spikes(p, m, leg))
  {
    hide Record, MovePosition, DevSellAlert, LargeSellAlert, WhaleBuyAlert, GraduationAlert, Collapses, Spikes, BucketZ, Leg.Token;
    var r := Record(p, c, leg);
    var m := MovePosition(r, creators, leg);
    FourKinds(p, c, creators, leg);
    FourKinds(p, r, creators, leg);
    var collapse, spike := CollapseAlert(p, m, leg), SpikeAlert(p, m, leg);
    if Collapses(p, m, leg) { assert collapse[0] in CoreAlerts(p, c, creators, leg); }
    if Spikes(p, m, leg) { assert spike[0] in CoreAlerts(p, c, creators, leg); }
  }
}
