/** What the copy engine spends: the amount of every buy it sends, over whole runs. */
module CopySpend {
  import opened CopyEngine
  import opened CopyRuns

  /** The buy spends what the follower's settings say: the rounded value of the leader's
      trade, or the rounded flat amount, the wallet's own if it has one. */
  ghost predicate SpentBy(env: Env, p: Pair, b: Bought) {
    var s := if p.follower in env.settings then env.settings[p.follower] else env.defaults;
    var flat := if p in env.flats then env.flats[p] else s.flat;
    && b.trade.side == "buy" && b.trade.value >= s.minBuy && b.usdc > 0.0
    && b.usdc == (if s.proportional then s.round6(b.trade.value) else s.round6(flat))
  }

  ghost predicate AllSpentBy(env: Env, p: Pair, bought: seq<Bought>) {
    forall i :: 0 <= i < |bought| ==> SpentBy(env, p, bought[i])
  }

  lemma VisitSpends(env: Env, p: Pair, v: Progress, t: Trade, fate: Fate)
    requires AllSpentBy(env, p, v.bought)
    ensures AllSpentBy(env, p, Visit(env.Effective(p), v, t, fate).bought)
  {
    var s := env.Effective(p);
    DecideIff(t, s, v.cache, t.token in v.open);
    if Decide(t, s, v.cache, t.token in v.open).BuyFor? { BuySpends(t, s, v.cache, t.token in v.open); }
    hide Decide, PlanSize, Tracked;
  }

  lemma {:induction false} VisitAllSpends(env: Env, p: Pair, v: Progress, trades: seq<Trade>)
    requires AllSpentBy(env, p, v.bought)
    ensures AllSpentBy(env, p, VisitAll(env.Effective(p), v, trades, env.Fates(p)).bought)
  {
    if |trades| > 0 {
      VisitAllSpends(env, p, v, trades[..|trades| - 1]);
      hide Visit, AllSpentBy, Env.Effective;
      VisitSpends(env, p, VisitAll(env.Effective(p), v, trades[..|trades| - 1], env.Fates(p)), trades[|trades| - 1],
                  FateOf(env.Fates(p), trades[|trades| - 1]));
    }
  }

  lemma ProgressSpends(e: Engine, env: Env, cache: Cache, p: Pair, n: nat)
    requires n <= |Fetched(e, env, p)|
    ensures AllSpentBy(env, p, ProgressOf(e, env, cache, p, n).bought)
  {
    hide Fetched, StartOf, VisitAll, Env.Effective;
    VisitAllSpends(env, p, Begin(StartOf(e, env, p), e.Open(p.follower), Cached(e, cache, p.follower)), Fetched(e, env, p)[..n]);
  }

  /** Each buy was sent under one of these environments. */
  ghost predicate SpentIn(envs: set<Env>, p: Pair, bought: seq<Bought>) {
    forall i :: 0 <= i < |bought| ==> exists env :: env in envs && SpentBy(env, p, bought[i])
  }

  lemma SpentMore(envs: set<Env>, env: Env, p: Pair, a: seq<Bought>, b: seq<Bought>)
    requires SpentIn(envs, p, a) && AllSpentBy(env, p, b)
    ensures SpentIn(envs + {env}, p, a) && SpentIn(envs + {env}, p, a + b)
  {
    hide SpentBy;
    forall i | 0 <= i < |a| ensures exists x :: x in envs + {env} && SpentBy(x, p, a[i]) {
      var x :| x in envs && SpentBy(x, p, a[i]);
      assert x in envs + {env};
    }
    forall i | 0 <= i < |b| ensures exists x :: x in envs + {env} && SpentBy(x, p, b[i]) {
      assert env in envs + {env} && SpentBy(env, p, b[i]);
    }
  }

  lemma ServeSpends(e: Engine, env: Env, cache: Cache, p: Pair, q: Pair, envs: set<Env>)
    requires SpentIn(envs, q, e.Buys(q))
    ensures SpentIn(envs + {env}, q, Serve(e, env, cache, p).Buys(q))
  {
    hide Serve, ProgressOf, Fetched, Reached, SpentIn, AllSpentBy, Engine.Done, Engine.Lost, Engine.Log, Engine.Cursor, Engine.Buys;
    ServeViews(e, env, cache, p, q);
    if p == q && Reached(e, env, p) {
      ProgressSpends(e, env, cache, p, |Fetched(e, env, p)|);
      SpentMore(envs, env, q, e.Buys(q), ProgressOf(e, env, cache, p, |Fetched(e, env, p)|).bought);
    } else {
      NothingSpent(env, q);
      SpentMore(envs, env, q, e.Buys(q), []);
    }
  }

  lemma NothingSpent(env: Env, q: Pair)
    ensures AllSpentBy(env, q, [])
  {
  }

  lemma KilledSpends(e: Engine, env: Env, cache: Cache, p: Pair, n: nat, q: Pair, envs: set<Env>)
    requires SpentIn(envs, q, e.Buys(q))
    ensures SpentIn(envs + {env}, q, KilledAt(e, env, cache, p, n).Buys(q))
  {
    hide KilledAt, ProgressOf, Fetched, Reached, SpentIn, AllSpentBy, Engine.Done, Engine.Lost, Engine.Log, Engine.Cursor, Engine.Buys;
    KilledViews(e, env, cache, p, n, q);
    if p == q && Reached(e, env, p) && n <= |Fetched(e, env, p)| {
      ProgressSpends(e, env, cache, p, n);
      SpentMore(envs, env, q, e.Buys(q), ProgressOf(e, env, cache, p, n).bought);
    } else {
      NothingSpent(env, q);
      SpentMore(envs, env, q, e.Buys(q), []);
    }
  }

  lemma {:induction false} ServeAllSpends(e: Engine, env: Env, pairs: seq<Pair>, q: Pair, envs: set<Env>)
    requires SpentIn(envs, q, e.Buys(q))
    ensures SpentIn(envs + {env}, q, ServeAll(e, env, pairs).0.Buys(q))
  {
    hide Serve, CacheAfter, SpentIn, AllSpentBy, Engine.Buys;
    if |pairs| == 0 {
      NothingSpent(env, q);
      SpentMore(envs, env, q, e.Buys(q), []);
    } else {
      var before, p := pairs[..|pairs| - 1], pairs[|pairs| - 1];
      ServeAllSpends(e, env, before, q, envs);
      ServeSpends(ServeAll(e, env, before).0, env, ServeAll(e, env, before).1, p, q, envs + {env});
      assert envs + {env} + {env} == envs + {env};
    }
  }

  ghost function EnvsOf(events: seq<Event>): set<Env> {
    set i | 0 <= i < |events| :: events[i].env
  }

  lemma EnvsMore(events: seq<Event>)
    requires |events| > 0
    ensures EnvsOf(events) == EnvsOf(events[..|events| - 1]) + {events[|events| - 1].env}
  {
    var before := events[..|events| - 1];
    forall x | x in EnvsOf(events) ensures x in EnvsOf(before) + {events[|events| - 1].env} {
      var i :| 0 <= i < |events| && events[i].env == x;
      if i < |before| { assert before[i].env == x; }
    }
    forall x | x in EnvsOf(before) ensures x in EnvsOf(events) {
      var i :| 0 <= i < |before| && before[i].env == x;
      assert events[i].env == x;
    }
  }

  /** Over any passes, complete or killed, every buy spends what the settings of one of
      the passes say. */
  lemma {:induction false} RunSpends(e: Engine, events: seq<Event>, q: Pair)
    requires e.Buys(q) == []
    ensures SpentIn(EnvsOf(events), q, Run(e, events).Buys(q))
  {
    hide ServeAll, KilledAt, SpentIn, Engine.Buys, EnvsOf;
    if |events| == 0 {
      NoBuys(EnvsOf(events), q);
    } else {
      var before, ev := events[..|events| - 1], events[|events| - 1];
      RunSpends(e, before, q);
      EnvsMore(events);
      var now, envs := Run(e, before), EnvsOf(before);
      ServeAllSpends(now, ev.env, ev.pairs, q, envs);
      if ev.KilledPass? {
        var (after, cache) := ServeAll(now, ev.env, ev.pairs);
        KilledSpends(after, ev.env, cache, ev.p, ev.n, q, envs + {ev.env});
        assert envs + {ev.env} + {ev.env} == envs + {ev.env};
      }
    }
  }

  lemma NoBuys(envs: set<Env>, q: Pair)
    ensures SpentIn(envs, q, [])
  {
  }

  // ----- totals

  function Spent(bought: seq<Bought>): real {
    if |bought| == 0 then 0.0 else Spent(bought[..|bought| - 1]) + bought[|bought| - 1].usdc
  }

  lemma {:induction false} EqualBuys(bought: seq<Bought>, r: real)
    requires forall i :: 0 <= i < |bought| ==> bought[i].usdc == r
    ensures Spent(bought) == |bought| as real * r
  {
    if |bought| > 0 {
      EqualBuys(bought[..|bought| - 1], r);
      assert |bought| as real * r == (|bought| - 1) as real * r + r;
    }
  }

  /** Flat mode in every pass, with this rounded amount. */
  ghost predicate FlatAt(events: seq<Event>, p: Pair, r: real) {
    forall i :: 0 <= i < |events| ==>
      var env := events[i].env;
      var s := if p.follower in env.settings then env.settings[p.follower] else env.defaults;
      !s.proportional && s.round6(if p in env.flats then env.flats[p] else s.flat) == r
  }

  lemma SpentFlat(events: seq<Event>, p: Pair, r: real, b: Bought)
    requires FlatAt(events, p, r) && exists env :: env in EnvsOf(events) && SpentBy(env, p, b)
    ensures b.usdc == r
  {
    var env :| env in EnvsOf(events) && SpentBy(env, p, b);
    var j :| 0 <= j < |events| && events[j].env == env;
  }

  lemma AllFlat(events: seq<Event>, p: Pair, r: real, bought: seq<Bought>)
    requires FlatAt(events, p, r) && SpentIn(EnvsOf(events), p, bought)
    ensures forall i :: 0 <= i < |bought| ==> bought[i].usdc == r
  {
    hide FlatAt, EnvsOf, SpentBy;
    forall i | 0 <= i < |bought| ensures bought[i].usdc == r { SpentFlat(events, p, r, bought[i]); }
  }

  /** In flat mode a run spends the rounded flat amount for each buy it copies. */
  lemma FlatSpend(e: Engine, events: seq<Event>, p: Pair, r: real)
    requires e.Buys(p) == [] && FlatAt(events, p, r)
    ensures var bought := Run(e, events).Buys(p);
            Spent(bought) == |bought| as real * r
  {
    hide *;
    RunSpends(e, events, p);
    AllFlat(events, p, r, Run(e, events).Buys(p));
    EqualBuys(Run(e, events).Buys(p), r);
  }

  // ----- the buys are those that were sent

  function TradesOf(bought: seq<Bought>): multiset<Trade> {
    if |bought| == 0 then multiset{} else TradesOf(bought[..|bought| - 1]) + multiset{bought[|bought| - 1].trade}
  }

  lemma {:induction false} TradesConcat(a: seq<Bought>, b: seq<Bought>)
    ensures TradesOf(a + b) == TradesOf(a) + TradesOf(b)
  {
    if |b| == 0 {
      assert a + b == a;
    } else {
      assert (a + b)[..|a + b| - 1] == a + b[..|b| - 1];
      TradesConcat(a, b[..|b| - 1]);
    }
  }

  /** Of the trades sent, exactly the leader's buys are bought. */
  ghost predicate BuysOf(done: multiset<Trade>, bought: seq<Bought>) {
    forall t :: TradesOf(bought)[t] == if t.side == "buy" then done[t] else 0
  }

  lemma OneTrade(t: Trade, usdc: real)
    ensures TradesOf([Bought(t, usdc)]) == multiset{t}
  {
    assert [Bought(t, usdc)][..0] == [];
  }

  lemma VisitSends(s: Settings, v: Progress, t: Trade, fate: Fate)
    ensures var v', d := Visit(s, v, t, fate), Decide(t, s, v.cache, t.token in v.open);
            || (v'.done == v.done && v'.bought == v.bought)
            || (!d.Skip? && v'.done == v.done + multiset{t} && v'.bought == v.bought + Spending(t, d))
  {
    hide Decide, Tracked, Spending;
  }

  lemma DecidedSide(t: Trade, s: Settings, n: nat, holding: bool)
    ensures Decide(t, s, n, holding).Skip? || (Decide(t, s, n, holding).BuyFor? <==> t.side == "buy")
  {
    assert "buy" != "sell" by { assert "buy"[0] != "sell"[0]; }
    hide PlanSize;
  }

  lemma SpendingIs(t: Trade, d: Decision)
    ensures TradesOf(Spending(t, d)) == if d.BuyFor? then multiset{t} else multiset{}
  {
    if d.BuyFor? { OneTrade(t, d.usdc); }
  }

  lemma VisitBuys(s: Settings, v: Progress, t: Trade, fate: Fate)
    requires BuysOf(v.done, v.bought)
    ensures BuysOf(Visit(s, v, t, fate).done, Visit(s, v, t, fate).bought)
  {
    hide Visit, Decide, Spending, TradesOf;
    var d := Decide(t, s, v.cache, t.token in v.open);
    VisitSends(s, v, t, fate);
    DecidedSide(t, s, v.cache, t.token in v.open);
    SpendingIs(t, d);
    TradesConcat(v.bought, Spending(t, d));
  }

  lemma {:induction false} VisitAllBuys(s: Settings, v: Progress, trades: seq<Trade>, fates: map<int, Fate>)
    requires BuysOf(v.done, v.bought)
    ensures BuysOf(VisitAll(s, v, trades, fates).done, VisitAll(s, v, trades, fates).bought)
  {
    if |trades| > 0 {
      VisitAllBuys(s, v, trades[..|trades| - 1], fates);
      hide Visit, BuysOf;
      VisitBuys(s, VisitAll(s, v, trades[..|trades| - 1], fates), trades[|trades| - 1], FateOf(fates, trades[|trades| - 1]));
    }
  }

  lemma ProgressBuys(e: Engine, env: Env, cache: Cache, p: Pair, n: nat)
    requires n <= |Fetched(e, env, p)|
    ensures BuysOf(ProgressOf(e, env, cache, p, n).done, ProgressOf(e, env, cache, p, n).bought)
  {
    hide Fetched, StartOf, VisitAll, Env.Effective;
    VisitAllBuys(env.Effective(p), Begin(StartOf(e, env, p), e.Open(p.follower), Cached(e, cache, p.follower)),
                 Fetched(e, env, p)[..n], env.Fates(p));
  }

  lemma BuysJoin(done: multiset<Trade>, bought: seq<Bought>, more: multiset<Trade>, moreBought: seq<Bought>)
    requires BuysOf(done, bought) && BuysOf(more, moreBought)
    ensures BuysOf(done + more, bought + moreBought)
  {
    hide TradesOf;
    TradesConcat(bought, moreBought);
    forall t ensures TradesOf(bought + moreBought)[t] == if t.side == "buy" then (done + more)[t] else 0 {
      assert TradesOf(bought)[t] == if t.side == "buy" then done[t] else 0;
    }
  }

  lemma ServeBuys(e: Engine, env: Env, cache: Cache, p: Pair, q: Pair)
    requires BuysOf(e.Done(q), e.Buys(q))
    ensures BuysOf(Serve(e, env, cache, p).Done(q), Serve(e, env, cache, p).Buys(q))
  {
    hide Serve, ProgressOf, Fetched, Reached, BuysOf, Engine.Done, Engine.Lost, Engine.Log, Engine.Cursor, Engine.Buys;
    ServeViews(e, env, cache, p, q);
    if p == q && Reached(e, env, p) {
      var v := ProgressOf(e, env, cache, p, |Fetched(e, env, p)|);
      ProgressBuys(e, env, cache, p, |Fetched(e, env, p)|);
      BuysJoin(e.Done(q), e.Buys(q), v.done, v.bought);
    }
  }

  lemma KilledBuys(e: Engine, env: Env, cache: Cache, p: Pair, n: nat, q: Pair)
    requires BuysOf(e.Done(q), e.Buys(q))
    ensures BuysOf(KilledAt(e, env, cache, p, n).Done(q), KilledAt(e, env, cache, p, n).Buys(q))
  {
    hide KilledAt, ProgressOf, Fetched, Reached, BuysOf, Engine.Done, Engine.Lost, Engine.Log, Engine.Cursor, Engine.Buys;
    KilledViews(e, env, cache, p, n, q);
    if p == q && Reached(e, env, p) && n <= |Fetched(e, env, p)| {
      var v := ProgressOf(e, env, cache, p, n);
      ProgressBuys(e, env, cache, p, n);
      BuysJoin(e.Done(q), e.Buys(q), v.done, v.bought);
    }
  }

  lemma {:induction false} ServeAllBuys(e: Engine, env: Env, pairs: seq<Pair>, q: Pair)
    requires BuysOf(e.Done(q), e.Buys(q))
    ensures BuysOf(ServeAll(e, env, pairs).0.Done(q), ServeAll(e, env, pairs).0.Buys(q))
  {
    if |pairs| > 0 {
      var before := pairs[..|pairs| - 1];
      ServeAllBuys(e, env, before, q);
      hide Serve, CacheAfter, BuysOf, Engine.Done, Engine.Buys;
      ServeBuys(ServeAll(e, env, before).0, env, ServeAll(e, env, before).1, pairs[|pairs| - 1], q);
    }
  }

  /** Over any passes the buys with their amounts are exactly the leader's buys sent. */
  lemma {:induction false} RunBuys(e: Engine, events: seq<Event>, q: Pair)
    requires BuysOf(e.Done(q), e.Buys(q))
    ensures BuysOf(Run(e, events).Done(q), Run(e, events).Buys(q))
  {
    if |events| > 0 {
      var before, ev := events[..|events| - 1], events[|events| - 1];
      RunBuys(e, before, q);
      hide ServeAll, KilledAt, BuysOf, Engine.Done, Engine.Buys;
      ServeAllBuys(Run(e, before), ev.env, ev.pairs, q);
      if ev.KilledPass? {
        var (after, cache) := ServeAll(Run(e, before), ev.env, ev.pairs);
        KilledBuys(after, ev.env, cache, ev.p, ev.n, q);
      }
    }
  }
}
