/** What whole runs of the copy engine keep: nothing lost, nothing repeated, bounded positions, and what faults cost. */
module CopyLaws {
  import opened CopyEngine
  import opened CopyRuns

  // ----- the settled trades are a prefix

  predicate Strict(table: seq<Trade>) {
    forall i, j :: 0 <= i < j < |table| ==> table[i].block < table[j].block
  }

  lemma {:induction false} AbovePrefix(table: seq<Trade>, all: seq<Trade>, since: int)
    requires table <= all
    ensures Above(table, since) <= Above(all, since)
    decreases |all|
  {
    if |table| < |all| {
      AbovePrefix(table, all[..|all| - 1], since);
      AboveStep(all, since);
    } else {
      assert table == all;
    }
  }

  /** Trades above a block, of which the first k lie at or below a later one: the
      trades above that one are the rest. */
  lemma {:induction false} AboveSplits(table: seq<Trade>, since: int, later: int, k: nat)
    requires since <= later && k <= |Above(table, since)|
    requires forall i :: 0 <= i < k ==> Above(table, since)[i].block <= later
    requires forall i :: k <= i < |Above(table, since)| ==> Above(table, since)[i].block > later
    ensures Above(table, later) == Above(table, since)[k..]
  {
    if |table| > 0 {
      AboveStep(table, since);
      AboveStep(table, later);
      var before, t := table[..|table| - 1], table[|table| - 1];
      var a, all := Above(before, since), Above(table, since);
      assert forall i :: 0 <= i < |a| ==> a[i] == all[i];
      if k <= |a| {
        AboveSplits(before, since, later, k);
        assert t.block > since ==> all[|a|] == t;
      } else {
        assert all[|a|] == t && t.block <= later;
        AboveSplits(before, since, later, |a|);
      }
    }
  }

  lemma {:induction false} AboveRises(table: seq<Trade>, since: int, i: nat, j: nat)
    requires InOrder(table) && i <= j < |Above(table, since)|
    ensures Above(table, since)[i].block <= Above(table, since)[j].block
  {
    AboveInOrder(table, since);
  }

  /** Moving the cursor to the k-th trade above it leaves exactly the trades after that
      one if and only if there are none or the next lies in a higher block. */
  lemma AboveCut(table: seq<Trade>, since: int, k: nat)
    requires InOrder(table) && 0 < k <= |Above(table, since)|
    ensures Above(table, Above(table, since)[k - 1].block) == Above(table, since)[k..]
       <==> k == |Above(table, since)| || Above(table, since)[k].block > Above(table, since)[k - 1].block
  {
    hide Above, InOrder;
    var all := Above(table, since);
    var later := all[k - 1].block;
    forall i | 0 <= i < k ensures all[i].block <= later { AboveRises(table, since, i, k - 1); }
    if k == |all| {
      AboveSplits(table, since, later, k);
    } else if all[k].block > later {
      forall i | k <= i < |all| ensures all[i].block > later { AboveRises(table, since, k, i); }
      AboveSplits(table, since, later, k);
    } else {
      assert all[k..][0] == all[k];
    }
  }

  lemma RecentPrefix(all: seq<Trade>, table: seq<Trade>, since: int, limit: nat)
    requires table <= all
    ensures Recent(table, since, limit) <= Above(all, since)
  {
    AbovePrefix(table, all, since);
    hide Above;
  }

  lemma StrictIsInOrder(table: seq<Trade>)
    requires Strict(table)
    ensures InOrder(table)
  {
  }

  lemma {:induction false} AboveStrict(table: seq<Trade>, since: int, k: nat)
    requires Strict(table) && 0 < k < |Above(table, since)|
    ensures Above(table, since)[k].block > Above(table, since)[k - 1].block
  {
    AboveStep(table, since);
    var before := table[..|table| - 1];
    if k < |Above(before, since)| {
      AboveStrict(before, since, k);
    } else {
      assert Above(before, since)[k - 1] in before;
    }
  }

  lemma StrictCut(table: seq<Trade>, since: int, k: nat)
    requires Strict(table) && 0 < k <= |Above(table, since)|
    ensures Above(table, Above(table, since)[k - 1].block) == Above(table, since)[k..]
  {
    if k < |Above(table, since)| { AboveStrict(table, since, k); }
    StrictIsInOrder(table);
    hide Above, Strict, InOrder;
    AboveCut(table, since, k);
  }

  lemma PassSplits(all: seq<Trade>, table: seq<Trade>, since: int, limit: nat, v: Progress)
    requires Strict(all) && table <= all && Settled(since, Recent(table, since, limit), v)
    ensures v.settled <= |Recent(table, since, limit)|
    ensures Above(all, since) == Recent(table, since, limit)[..v.settled] + Above(all, v.advanced)
  {
    hide Above, Strict, Recent;
    var trades, rest := Recent(table, since, limit), Above(all, since);
    RecentPrefix(all, table, since, limit);
    assert forall i :: 0 <= i < |trades| ==> trades[i] == rest[i];
    if v.settled > 0 { StrictCut(all, since, v.settled); }
    assert rest == trades[..v.settled] + rest[v.settled..];
  }

  lemma AppendCancels(a: seq<Trade>, b: seq<Trade>, c: seq<Trade>)
    ensures a + b == a + c <==> b == c
  {
    if a + b == a + c {
      assert b == (a + b)[|a|..] && c == (a + c)[|a|..];
    }
  }

  /** A pass leaves exactly the trades it has not settled above its cursor, whether an
      exception or LIMIT ended it, if and only if none are left or the next one lies in
      a higher block than the last settled one. */
  lemma PassLeavesRestIff(table: seq<Trade>, since: int, limit: nat, v: Progress)
    requires InOrder(table) && Settled(since, Recent(table, since, limit), v)
    ensures v.settled <= |Recent(table, since, limit)| <= |Above(table, since)|
    ensures Above(table, since) == Recent(table, since, limit)[..v.settled] + Above(table, v.advanced)
       <==> v.settled == |Above(table, since)| || Above(table, since)[v.settled].block > v.advanced
  {
    var all, trades := Above(table, since), Recent(table, since, limit);
    hide Above, InOrder;
    assert all == trades[..v.settled] + all[v.settled..];
    AppendCancels(trades[..v.settled], all[v.settled..], Above(table, v.advanced));
    if v.settled > 0 { AboveCut(table, since, v.settled); }
  }

  /** From cursor `from` on: what has been settled, then what is still to come. */
  ghost predicate Accounted(e: Engine, p: Pair, all: seq<Trade>, from: int) {
    e.Cursor(p) > 0 && Above(all, from) == e.Log(p) + Above(all, e.Cursor(p))
  }

  lemma AccountsExtend(all: seq<Trade>, from: int, log: seq<Trade>, c: int, more: seq<Trade>, c': int)
    requires Above(all, from) == log + Above(all, c) && Above(all, c) == more + Above(all, c')
    ensures Above(all, from) == (log + more) + Above(all, c')
  {
    hide Above;
    assert (log + more) + Above(all, c') == log + (more + Above(all, c'));
  }

  lemma ServeAccounts(e: Engine, env: Env, cache: Cache, q: Pair, p: Pair, all: seq<Trade>, from: int)
    requires env.Ok() && Strict(all) && env.Table(p.leader) <= all && Accounted(e, p, all, from)
    ensures Accounted(Serve(e, env, cache, q), p, all, from)
  {
    hide Serve, ProgressOf, Reached, Engine.Done, Engine.Lost, Engine.Log, Engine.Buys, Engine.Cursor, Above, Strict, Recent, Settled,
         Env.Table, Env.Ok;
    ServeViews(e, env, cache, q, p);
    if q != p || !Reached(e, env, q) {
      QuietCursor(e, env, cache, q, p);
    } else {
      var trades := Fetched(e, env, p);
      assert trades[..|trades|] == trades;
      ServeSettles(e, env, cache, p, |trades|);
      var v := ProgressOf(e, env, cache, p, |trades|);
      PassSplits(all, env.Table(p.leader), e.Cursor(p), env.limit, v);
      FetchedAreAbove(e, env, p);
      SettledMoves(e.Cursor(p), trades, v);
      AccountsExtend(all, from, e.Log(p), e.Cursor(p), trades[..v.settled], v.advanced);
    }
  }

  lemma QuietCursor(e: Engine, env: Env, cache: Cache, q: Pair, p: Pair)
    requires e.Cursor(p) > 0 && (q != p || !Reached(e, env, q))
    ensures Serve(e, env, cache, q).Cursor(p) == e.Cursor(p)
  {
    hide ProgressOf, Fetched, Sent, Logged, Engine.Cursor;
    var at := Wrote(e, q, StartOf(e, env, q));
    WroteViews(e, q, StartOf(e, env, q), p);
    if Reached(e, env, q) {
      var trades := Fetched(e, env, q);
      var v := ProgressOf(e, env, cache, q, |trades|);
      SentViews(at, q, v, p);
      LoggedViews(Sent(at, q, v), q, trades[..v.settled], p);
      WroteViews(Logged(Sent(at, q, v), q, trades[..v.settled]), q, v.advanced, p);
    }
  }

  lemma KilledAccounts(e: Engine, env: Env, cache: Cache, q: Pair, n: nat, p: Pair, all: seq<Trade>, from: int)
    requires Accounted(e, p, all, from)
    ensures Accounted(KilledAt(e, env, cache, q, n), p, all, from)
  {
    KilledViews(e, env, cache, q, n, p);
    hide ProgressOf, Fetched, Sent, Engine.Done, Engine.Lost, Engine.Log, Engine.Buys, Engine.Cursor, Above;
    WroteViews(e, q, StartOf(e, env, q), p);
    if Reached(e, env, q) && n <= |Fetched(e, env, q)| {
      var v := ProgressOf(e, env, cache, q, n);
      SentViews(Wrote(e, q, StartOf(e, env, q)), q, v.(lost := v.done), p);
    }
  }

  lemma {:induction false} ServeAllAccounts(e: Engine, env: Env, pairs: seq<Pair>, p: Pair, all: seq<Trade>, from: int)
    requires env.Ok() && Strict(all) && env.Table(p.leader) <= all && Accounted(e, p, all, from)
    ensures Accounted(ServeAll(e, env, pairs).0, p, all, from)
  {
    if |pairs| > 0 {
      var before := pairs[..|pairs| - 1];
      ServeAllAccounts(e, env, before, p, all, from);
      hide Serve, CacheAfter, Accounted, Env.Ok, Strict;
      ServeAccounts(ServeAll(e, env, before).0, env, ServeAll(e, env, before).1, pairs[|pairs| - 1], p, all, from);
    }
  }

  /** However passes succeed, fail or are killed: if the leader's trade blocks strictly
      increase, the settled trades are exactly the first ones above the starting
      cursor, in order and each once, and the next one fetched is the first unsettled. */
  lemma {:induction false} SettledIsPrefix(e: Engine, events: seq<Event>, p: Pair, all: seq<Trade>)
    requires AllOk(events) && Strict(all) && e.Cursor(p) > 0 && e.Log(p) == []
    requires forall i :: 0 <= i < |events| ==> events[i].env.Table(p.leader) <= all
    ensures Accounted(Run(e, events), p, all, e.Cursor(p))
  {
    if |events| > 0 {
      var before, ev := events[..|events| - 1], events[|events| - 1];
      SettledIsPrefix(e, before, p, all);
      var now := Run(e, before);
      assert ev.env.Ok() && ev.env.Table(p.leader) <= all;
      hide KilledAt, ServeAll, Accounted, Engine.Cursor, Engine.Log, Env.Ok, Strict, Env.Table;
      ServeAllAccounts(now, ev.env, ev.pairs, p, all, e.Cursor(p));
      if ev.KilledPass? {
        var (after, cache) := ServeAll(now, ev.env, ev.pairs);
        KilledAccounts(after, ev.env, cache, ev.p, ev.n, p, all, e.Cursor(p));
      }
    } else {
      assert [] + Above(all, e.Cursor(p)) == Above(all, e.Cursor(p));
    }
  }

  /** A trade that stopped a pass is the first one the next pass fetches if its block is
      above that of the last trade settled before it, and else is above the cursor no more. */
  lemma FailedIsRetriedIff(table: seq<Trade>, since: int, limit: nat, v: Progress)
    requires InOrder(table) && Settled(since, Recent(table, since, limit), v) && v.stopped
    ensures var trades, again := Recent(table, since, limit), Recent(table, v.advanced, limit);
            && v.settled < |trades|
            && var higher := v.settled == 0 || trades[v.settled - 1].block < trades[v.settled].block;
               && (|again| > 0 && again[0] == trades[v.settled] <==> higher)
               && (trades[v.settled] in Above(table, v.advanced) <==> higher)
  {
    StoppedAt(table, since, limit, v);
    hide *;
    var trades := Recent(table, since, limit);
    KeptAbove(table, v.advanced, trades[v.settled]);
    PassLeavesRestIff(table, since, limit, v);
    FirstOfRest(Above(table, since), Above(table, v.advanced), trades, v.settled);
    RecentFirst(table, v.advanced, limit);
  }

  /** Where a pass stopped. */
  lemma StoppedAt(table: seq<Trade>, since: int, limit: nat, v: Progress)
    requires Settled(since, Recent(table, since, limit), v) && v.stopped
    ensures var trades, all := Recent(table, since, limit), Above(table, since);
            && limit > 0 && trades <= all && v.settled < |trades| && trades[v.settled] in table
            && (trades[v.settled].block > v.advanced
                <==> v.settled == 0 || trades[v.settled - 1].block < trades[v.settled].block)
  {
    hide Above;
  }

  lemma RecentFirst(table: seq<Trade>, since: int, limit: nat)
    ensures Recent(table, since, limit) <= Above(table, since)
    ensures limit > 0 && |Above(table, since)| > 0 ==> |Recent(table, since, limit)| > 0
    ensures forall i :: 0 <= i < |Recent(table, since, limit)| ==> Recent(table, since, limit)[i] in Above(table, since)
  {
    hide Above;
  }

  lemma FirstOfRest(all: seq<Trade>, rest: seq<Trade>, trades: seq<Trade>, k: nat)
    requires trades <= all && k < |trades|
    ensures all == trades[..k] + rest ==> |rest| > 0 && rest[0] == trades[k]
  {
    if all == trades[..k] + rest { assert all[k] == trades[k]; }
  }

  lemma {:induction false} KeptAbove(table: seq<Trade>, since: int, t: Trade)
    requires t in table
    ensures t in Above(table, since) <==> t.block > since
  {
    AboveStep(table, since);
    var before := table[..|table| - 1];
    assert table == before + [table[|table| - 1]];
    if t in before { KeptAbove(before, since, t); }
  }

  // ----- no fault, no repeat

  /** How often a pass was killed while it served the pair. */
  function Kills(events: seq<Event>, p: Pair): nat {
    if |events| == 0 then 0
    else
      var ev := events[|events| - 1];
      Kills(events[..|events| - 1], p) + if ev.KilledPass? && ev.p == p then 1 else 0
  }

  /** How often recording the trade may raise after its swap went through. */
  function SwapRaises(events: seq<Event>, p: Pair, t: Trade): nat {
    if |events| == 0 then 0
    else
      SwapRaises(events[..|events| - 1], p, t)
      + if FateOf(events[|events| - 1].env.Fates(p), t).RaisesAfterSwap? then 1 else 0
  }

  lemma VisitKeeps(s: Settings, v: Progress, x: Trade, fate: Fate, t: Trade)
    requires x == t ==> !fate.RaisesAfterSwap?
    ensures Visit(s, v, x, fate).lost[t] == v.lost[t]
  {
    hide Decide, Tracked;
  }

  lemma {:induction false} VisitsKeep(s: Settings, v: Progress, trades: seq<Trade>, fates: map<int, Fate>, t: Trade)
    requires !FateOf(fates, t).RaisesAfterSwap?
    ensures VisitAll(s, v, trades, fates).lost[t] == v.lost[t]
  {
    if |trades| > 0 {
      var before, x := trades[..|trades| - 1], trades[|trades| - 1];
      VisitsKeep(s, v, before, fates, t);
      hide Visit, FateOf;
      VisitKeeps(s, VisitAll(s, v, before, fates), x, FateOf(fates, x), t);
    }
  }

  lemma ServeKeeps(e: Engine, env: Env, cache: Cache, p: Pair, q: Pair, t: Trade)
    requires !FateOf(env.Fates(q), t).RaisesAfterSwap?
    ensures Serve(e, env, cache, p).Lost(q)[t] == e.Lost(q)[t]
  {
    hide Serve, Reached, Fetched, FateOf, Engine.Done, Engine.Lost, Engine.Log, Engine.Buys, Engine.Cursor;
    ServeViews(e, env, cache, p, q);
    if p == q && Reached(e, env, p) {
      var trades := Fetched(e, env, p);
      assert trades[..|trades|] == trades;
      VisitsKeep(env.Effective(p), Begin(StartOf(e, env, p), e.Open(p.follower), Cached(e, cache, p.follower)),
                 trades, env.Fates(p), t);
    }
  }

  lemma {:induction false} ServeAllKeeps(e: Engine, env: Env, pairs: seq<Pair>, q: Pair, t: Trade)
    requires !FateOf(env.Fates(q), t).RaisesAfterSwap?
    ensures ServeAll(e, env, pairs).0.Lost(q)[t] == e.Lost(q)[t]
  {
    if |pairs| > 0 {
      var before := pairs[..|pairs| - 1];
      ServeAllKeeps(e, env, before, q, t);
      hide Serve, CacheAfter, Engine.Lost, FateOf;
      ServeKeeps(ServeAll(e, env, before).0, env, ServeAll(e, env, before).1, pairs[|pairs| - 1], q, t);
    }
  }

  lemma KilledKeeps(e: Engine, env: Env, cache: Cache, p: Pair, n: nat, q: Pair)
    requires p != q
    ensures KilledAt(e, env, cache, p, n).Lost(q) == e.Lost(q)
  {
    KilledViews(e, env, cache, p, n, q);
  }

  lemma {:induction false} RunLosesNothing(e: Engine, events: seq<Event>, p: Pair, t: Trade)
    requires Kills(events, p) == 0 && SwapRaises(events, p, t) == 0
    ensures Run(e, events).Lost(p)[t] == e.Lost(p)[t]
  {
    if |events| > 0 {
      var before, ev := events[..|events| - 1], events[|events| - 1];
      RunLosesNothing(e, before, p, t);
      hide ServeAll, KilledAt, Engine.Lost, FateOf;
      var now := Run(e, before);
      ServeAllKeeps(now, ev.env, ev.pairs, p, t);
      if ev.KilledPass? {
        KilledKeeps(ServeAll(now, ev.env, ev.pairs).0, ev.env, ServeAll(now, ev.env, ev.pairs).1, ev.p, ev.n, p);
      }
    }
  }

  function Fresh(cursors: map<Pair, int>, open: map<string, set<string>>): Engine {
    Engine(cursors, open, map[], map[], map[], map[])
  }

  /** A trade whose pair is not killed while served, and whose recording does not raise
      after its swap, is sent at most once, whatever happens to every other trade. */
  lemma AtMostOnce(cursors: map<Pair, int>, open: map<string, set<string>>, events: seq<Event>, p: Pair, t: Trade)
    requires AllOk(events) && Kills(events, p) == 0 && SwapRaises(events, p, t) == 0
    ensures Run(Fresh(cursors, open), events).Done(p)[t] <= 1
  {
    var e := Fresh(cursors, open);
    assert OnceFor(e, p);
    hide Run, OnceFor;
    RunKeepsOnce(e, events, p);
    RunLosesNothing(e, events, p, t);
    assert e.Lost(p)[t] == 0;
    OnceForOne(Run(e, events), p, t);
  }

  lemma OnceForOne(e: Engine, p: Pair, t: Trade)
    requires OnceFor(e, p)
    ensures e.Done(p)[t] <= e.Lost(p)[t] + 1
  {
  }

  // ----- open positions

  /** At most `bound` positions are open, and the cached count is right, but for as many
      as `r` that an exception hid from the cache. */
  predicate Within(v: Progress, bound: nat, r: nat) {
    |v.open| <= bound + r && v.cache + r >= |v.open|
  }

  lemma GrowByOne(open: set<string>, t: string)
    ensures |open + {t}| == (if t in open then |open| else |open| + 1) && |open - {t}| <= |open|
  {
    if t in open { assert open + {t} == open; }
  }

  lemma VisitStaysWithin(s: Settings, v: Progress, t: Trade, fate: Fate, bound: nat, r: nat)
    requires Within(v, bound, r) && 0 < s.maxOpen <= bound
    ensures Within(Visit(s, v, t, fate), bound, r) || (fate == RaisesAfterSwap(true) && Within(Visit(s, v, t, fate), bound, r + 1))
    ensures fate == RaisesAfterSwap(true) && !v.stopped ==>
              Visit(s, v, t, fate).stopped || Within(Visit(s, v, t, fate), bound, r)
  {
    GrowByOne(v.open, t.token);
    hide PlanSize;
  }

  /** The executor may raise for one of these after a position moved. */
  ghost predicate Exposed(fates: map<int, Fate>) {
    exists id :: id in fates && fates[id] == RaisesAfterSwap(true)
  }

  lemma ExposedBy(fates: map<int, Fate>, t: Trade)
    requires FateOf(fates, t) == RaisesAfterSwap(true)
    ensures Exposed(fates)
  {
  }

  function Slack(exposed: bool): nat {
    if exposed then 1 else 0
  }

  lemma WithinMore(v: Progress, bound: nat, r: nat, more: nat)
    requires Within(v, bound, r)
    ensures Within(v, bound, r + more)
  {
  }

  /** A pass over one leader's trades hides at most one position, as it stops there. */
  lemma {:induction false} VisitAllStaysWithin(s: Settings, v: Progress, trades: seq<Trade>, fates: map<int, Fate>, bound: nat, r: nat)
    requires Within(v, bound, r) && 0 < s.maxOpen <= bound && !v.stopped
    ensures var v' := VisitAll(s, v, trades, fates);
            Within(v', bound, r + Slack(Exposed(fates))) && (v'.stopped || Within(v', bound, r))
  {
    WithinMore(v, bound, r, Slack(Exposed(fates)));
    if |trades| > 0 {
      var before, t := VisitAll(s, v, trades[..|trades| - 1], fates), trades[|trades| - 1];
      VisitAllStaysWithin(s, v, trades[..|trades| - 1], fates, bound, r);
      hide Visit, FateOf, Exposed, Within;
      if before.stopped {
        StoppedVisit(s, before, t, FateOf(fates, t));
      } else {
        VisitStaysWithin(s, before, t, FateOf(fates, t), bound, r);
        if FateOf(fates, t) == RaisesAfterSwap(true) { ExposedBy(fates, t); }
        if Within(Visit(s, before, t, FateOf(fates, t)), bound, r) {
          WithinMore(Visit(s, before, t, FateOf(fates, t)), bound, r, Slack(Exposed(fates)));
        }
      }
    }
  }

  ghost predicate Bounded(e: Engine, cache: Cache, f: string, bound: nat, r: nat) {
    |e.Open(f)| <= bound + r && (f in cache ==> cache[f] + r >= |e.Open(f)|)
  }

  lemma ServeOpen(e: Engine, env: Env, cache: Cache, p: Pair, f: string)
    ensures Serve(e, env, cache, p).Open(f)
         == if f == p.follower && Reached(e, env, p) then ProgressOf(e, env, cache, p, |Fetched(e, env, p)|).open else e.Open(f)
  {
    hide ProgressOf, Fetched, StartOf, Reached;
  }

  /** The pair is the follower's and may hide a position. */
  ghost predicate Hides(env: Env, p: Pair, f: string) {
    p.follower == f && Exposed(env.Fates(p))
  }

  lemma ProgressStaysWithin(e: Engine, env: Env, cache: Cache, p: Pair, n: nat, bound: nat, r: nat)
    requires Bounded(e, cache, p.follower, bound, r) && 0 < env.SettingsOf(p.follower).maxOpen <= bound
    requires n <= |Fetched(e, env, p)|
    ensures Within(ProgressOf(e, env, cache, p, n), bound, r + Slack(Hides(env, p, p.follower)))
  {
    hide Fetched, StartOf, VisitAll, Exposed, Engine.Open;
    VisitAllStaysWithin(env.Effective(p), Begin(StartOf(e, env, p), e.Open(p.follower), Cached(e, cache, p.follower)),
                        Fetched(e, env, p)[..n], env.Fates(p), bound, r);
  }

  lemma ServeStaysBounded(e: Engine, env: Env, cache: Cache, p: Pair, f: string, bound: nat, r: nat)
    requires Bounded(e, cache, f, bound, r) && 0 < env.SettingsOf(f).maxOpen <= bound
    ensures Bounded(Serve(e, env, cache, p), CacheAfter(e, env, cache, p), f, bound, r + Slack(Hides(env, p, f)))
  {
    hide Serve, Fetched, StartOf, ProgressOf, Reached, Exposed, Engine.Open;
    if p.follower == f { ProgressStaysWithin(e, env, cache, p, |Fetched(e, env, p)|, bound, r); }
    ServeOpen(e, env, cache, p, f);
  }

  ghost function Hidden(env: Env, pairs: seq<Pair>, f: string): nat {
    if |pairs| == 0 then 0 else Hidden(env, pairs[..|pairs| - 1], f) + Slack(Hides(env, pairs[|pairs| - 1], f))
  }

  lemma NobodyServed(e: Engine, env: Env, f: string, bound: nat, r: nat)
    requires |e.Open(f)| <= bound + r
    ensures Bounded(ServeAll(e, env, []).0, ServeAll(e, env, []).1, f, bound, r + Hidden(env, [], f))
  {
  }

  lemma OneMoreServed(e: Engine, env: Env, pairs: seq<Pair>, p: Pair, f: string)
    ensures var (before, cache) := ServeAll(e, env, pairs);
            ServeAll(e, env, pairs + [p]) == (Serve(before, env, cache, p), CacheAfter(before, env, cache, p))
    ensures Hidden(env, pairs + [p], f) == Hidden(env, pairs, f) + Slack(Hides(env, p, f))
  {
    hide Serve, CacheAfter, Hides, Slack;
    assert (pairs + [p])[..|pairs|] == pairs;
  }

  lemma {:induction false} ServeAllStaysBounded(e: Engine, env: Env, pairs: seq<Pair>, f: string, bound: nat, r: nat)
    requires |e.Open(f)| <= bound + r && 0 < env.SettingsOf(f).maxOpen <= bound
    ensures Bounded(ServeAll(e, env, pairs).0, ServeAll(e, env, pairs).1, f, bound, r + Hidden(env, pairs, f))
  {
    hide *;
    if |pairs| == 0 {
      NobodyServed(e, env, f, bound, r);
      assert pairs == [];
    } else {
      var before, p := pairs[..|pairs| - 1], pairs[|pairs| - 1];
      assert before + [p] == pairs;
      ServeAllStaysBounded(e, env, before, f, bound, r);
      OneMoreServed(e, env, before, p, f);
      ServeStaysBounded(ServeAll(e, env, before).0, env, ServeAll(e, env, before).1, p, f, bound, r + Hidden(env, before, f));
    }
  }

  lemma KilledStaysBounded(e: Engine, env: Env, cache: Cache, p: Pair, n: nat, f: string, bound: nat, r: nat)
    requires Bounded(e, cache, f, bound, r) && 0 < env.SettingsOf(f).maxOpen <= bound
    ensures |KilledAt(e, env, cache, p, n).Open(f)| <= bound + r + Slack(Hides(env, p, f))
  {
    hide Fetched, StartOf, ProgressOf, Reached, Exposed;
    if p.follower == f && n <= |Fetched(e, env, p)| {
      ProgressStaysWithin(e, env, cache, p, n, bound, r);
    }
  }

  ghost function HiddenBy(ev: Event, f: string): nat {
    Hidden(ev.env, ev.pairs, f) + Slack(ev.KilledPass? && Hides(ev.env, ev.p, f))
  }

  lemma EventStaysBounded(e: Engine, ev: Event, f: string, bound: nat, r: nat)
    requires |e.Open(f)| <= bound + r && 0 < ev.env.SettingsOf(f).maxOpen <= bound
    ensures |Happen(e, ev).Open(f)| <= bound + r + HiddenBy(ev, f)
  {
    hide KilledAt, ServeAll, Engine.Open, Env.SettingsOf, Hides, Hidden;
    var (after, cache) := ServeAll(e, ev.env, ev.pairs);
    ServeAllStaysBounded(e, ev.env, ev.pairs, f, bound, r);
    if ev.KilledPass? { KilledStaysBounded(after, ev.env, cache, ev.p, ev.n, f, bound, r + Hidden(ev.env, ev.pairs, f)); }
  }

  /** How often a pass serves a leader of the follower for whom the executor may raise
      after the position moved. */
  ghost function HiddenIn(events: seq<Event>, f: string): nat {
    if |events| == 0 then 0
    else HiddenIn(events[..|events| - 1], f) + HiddenBy(events[|events| - 1], f)
  }

  ghost predicate Capped(events: seq<Event>, f: string, cap: nat) {
    cap > 0 && forall i :: 0 <= i < |events| ==> events[i].env.SettingsOf(f).maxOpen == cap
  }

  /** When only the engine opens positions, a follower's open positions exceed the
      initial count and the cap by no more than the exceptions after a position moved. */
  lemma {:induction false} OpenIsBounded(e: Engine, events: seq<Event>, f: string, cap: nat)
    requires Capped(events, f, cap)
    ensures |Run(e, events).Open(f)| <= Max(|e.Open(f)|, cap) + HiddenIn(events, f)
  {
    if |events| > 0 {
      var before, ev := events[..|events| - 1], events[|events| - 1];
      OpenIsBounded(e, before, f, cap);
      assert ev.env.SettingsOf(f).maxOpen == cap;
      hide Happen, HiddenBy, Engine.Open, Env.SettingsOf;
      EventStaysBounded(Run(e, before), ev, f, Max(|e.Open(f)|, cap), HiddenIn(before, f));
    }
  }

  // ----- what a fault costs

  const P := Pair("f", "l")

  const T := Trade(7, 5, "t", "buy", 1.0)

  function OneTrade(round6: real -> real, fate: Fate): Env {
    Env(map[], Settings(0.0, 0, false, 25.0, true, round6), map[], map["l" := [T]], {}, 9, 20, map[P := map[7 := fate]])
  }

  const BEFORE := Fresh(map[P := 1], map[])

  /** A run in which the trade T is sent twice. */
  ghost predicate Repeats(events: seq<Event>, kills: nat, raises: nat) {
    AllOk(events) && Kills(events, P) == kills && SwapRaises(events, P, T) == raises && Run(BEFORE, events).Done(P)[T] == 2
  }

  function KillThenPass(env: Env): seq<Event> {
    [KilledPass(env, [], P, 1), Pass(env, [P])]
  }

  function RaiseThenPass(raising: Env, env: Env): seq<Event> {
    [Pass(raising, [P]), Pass(env, [P])]
  }

  /** A process killed between a swap and the cursor write sends the same trade again
      on its next pass. */
  lemma KillRepeats(round6: real -> real)
    requires round6(25.0) > 0.0
    ensures Repeats(KillThenPass(OneTrade(round6, Filled(false))), 1, 0)
  {
    var env := OneTrade(round6, Filled(false));
    hide Happen, Serve, KilledAt, Run, Engine.Done, Engine.Cursor, Env.Ok, Kills, SwapRaises;
    BeforeViews();
    SentByKilled(BEFORE, env);
    SentByPass(KilledAt(BEFORE, env, NO_CACHE, P, 1), env);
    OneTradeOk(env);
    TwoEvents(BEFORE, KilledPass(env, [], P, 1), Pass(env, [P]));
    HappenKilled(BEFORE, env);
    HappenPass(KilledAt(BEFORE, env, NO_CACHE, P, 1), env);
    TwoFaults(KilledPass(env, [], P, 1), Pass(env, [P]));
  }

  /** An exception between a swap and the cursor write does the same. */
  lemma RaiseRepeats(round6: real -> real)
    requires round6(25.0) > 0.0
    ensures Repeats(RaiseThenPass(OneTrade(round6, RaisesAfterSwap(false)), OneTrade(round6, Filled(false))), 0, 1)
  {
    var raising, env := OneTrade(round6, RaisesAfterSwap(false)), OneTrade(round6, Filled(false));
    hide Happen, Serve, Run, Engine.Done, Engine.Cursor, Env.Ok, Kills, SwapRaises;
    BeforeViews();
    SentByPass(BEFORE, raising);
    SentByPass(Serve(BEFORE, raising, NO_CACHE, P), env);
    OneTradeOk(raising);
    OneTradeOk(env);
    TwoEvents(BEFORE, Pass(raising, [P]), Pass(env, [P]));
    HappenPass(BEFORE, raising);
    HappenPass(Serve(BEFORE, raising, NO_CACHE, P), env);
    TwoFaults(Pass(raising, [P]), Pass(env, [P]));
  }

  ghost predicate SentOnce(kills: nat, raises: nat) {
    forall cursors, open, events, p, t ::
      AllOk(events) && Kills(events, p) <= kills && SwapRaises(events, p, t) <= raises
      ==> Run(Fresh(cursors, open), events).Done(p)[t] <= 1
  }

  /** No leader trade is ever sent twice under so many kills and after-swap exceptions
      if and only if there are none of either. */
  lemma SentOnceIff(kills: nat, raises: nat)
    ensures SentOnce(kills, raises) <==> kills == 0 && raises == 0
  {
    hide Run, AllOk, Kills, SwapRaises, Engine.Done;
    if kills == 0 && raises == 0 {
      forall cursors, open, events, p, t |
        AllOk(events) && Kills(events, p) <= kills && SwapRaises(events, p, t) <= raises
        ensures Run(Fresh(cursors, open), events).Done(p)[t] <= 1
      {
        AtMostOnce(cursors, open, events, p, t);
      }
    } else {
      var round6 := (x: real) => x;
      KillRepeats(round6);
      RaiseRepeats(round6);
    }
  }

  lemma BeforeViews()
    ensures BEFORE.Done(P) == multiset{} && BEFORE.Cursor(P) == 1
  {
  }

  lemma TwoFaults(a: Event, b: Event)
    requires b.Pass?
    ensures a.env.Ok() && b.env.Ok() ==> AllOk([a, b])
    ensures Kills([a, b], P) == if a.KilledPass? && a.p == P then 1 else 0
    ensures SwapRaises([a, b], P, T) == (if FateOf(a.env.Fates(P), T).RaisesAfterSwap? then 1 else 0)
                                      + (if FateOf(b.env.Fates(P), T).RaisesAfterSwap? then 1 else 0)
  {
    hide Env.Ok, Env.Fates, FateOf;
    assert [a, b][..1] == [a] && [a][..0] == [];
    assert Kills([a], P) == if a.KilledPass? && a.p == P then 1 else 0;
    assert SwapRaises([a], P, T) == if FateOf(a.env.Fates(P), T).RaisesAfterSwap? then 1 else 0;
  }

  lemma HappenKilled(e: Engine, env: Env)
    ensures Happen(e, KilledPass(env, [], P, 1)) == KilledAt(e, env, NO_CACHE, P, 1)
  {
    hide Serve, KilledAt;
  }

  lemma HappenPass(e: Engine, env: Env)
    ensures Happen(e, Pass(env, [P])) == Serve(e, env, NO_CACHE, P)
  {
    hide Serve, CacheAfter;
    OneMoreServed(e, env, [], P, "f");
    assert [] + [P] == [P];
  }

  lemma OneTradeOk(env: Env)
    requires exists fate :: env == OneTrade(env.defaults.round6, fate)
    ensures env.Ok()
  {
  }

  lemma SentByKilled(e: Engine, env: Env)
    requires env == OneTrade(env.defaults.round6, Filled(false)) && env.defaults.round6(25.0) > 0.0
    requires e.Cursor(P) == 1
    ensures KilledAt(e, env, NO_CACHE, P, 1).Done(P) == e.Done(P) + multiset{T} && KilledAt(e, env, NO_CACHE, P, 1).Cursor(P) == 1
  {
    OneTradeSends(e, env, NO_CACHE, Filled(false));
    KilledViews(e, env, NO_CACHE, P, 1, P);
    hide ProgressOf, KilledAt, Engine.Done, Reached, Fetched;
  }

  lemma SentByPass(e: Engine, env: Env)
    requires exists fate ::
               env == OneTrade(env.defaults.round6, fate) && (fate == RaisesAfterSwap(false) || fate == Filled(false))
    requires env.defaults.round6(25.0) > 0.0 && e.Cursor(P) == 1
    ensures Serve(e, env, NO_CACHE, P).Done(P) == e.Done(P) + multiset{T}
    ensures FateOf(env.Fates(P), T).RaisesAfterSwap? ==> Serve(e, env, NO_CACHE, P).Cursor(P) == 1
  {
    OneTradeSends(e, env, NO_CACHE, env.fates[P][7]);
    ServeViews(e, env, NO_CACHE, P, P);
    hide ProgressOf, Serve, Engine.Done, Reached, Fetched;
  }

  lemma OneTradeFetched(e: Engine, env: Env)
    requires env.tables == map["l" := [T]] && env.limit == 20 && env.unreachable == {} && e.Cursor(P) == 1
    ensures Reached(e, env, P) && Fetched(e, env, P) == [T]
  {
    AboveStep([T], 1);
    assert [T][..0] == [] && Above([], 1) == [];
  }

  lemma VisitOne(s: Settings, v: Progress, t: Trade, fates: map<int, Fate>)
    ensures VisitAll(s, v, [t], fates) == Visit(s, v, t, FateOf(fates, t))
  {
    hide Visit, FateOf;
    VisitMore(s, v, [t], 0, fates);
    assert [t][..1] == [t];
  }

  lemma VisitSends(s: Settings, v: Progress, fate: Fate)
    requires !v.stopped && s.minBuy == 0.0 && s.maxOpen == 0 && PlanSize(T.value, s) > 0.0
    requires fate == RaisesAfterSwap(false) || fate == Filled(false)
    ensures Visit(s, v, T, fate).done == v.done + multiset{T}
    ensures fate.RaisesAfterSwap? ==> Visit(s, v, T, fate).advanced == v.advanced
  {
    DecideIff(T, s, v.cache, T.token in v.open);
    hide Decide, PlanSize;
  }

  lemma OneTradeSends(e: Engine, env: Env, cache: Cache, fate: Fate)
    requires env == OneTrade(env.defaults.round6, fate) && (fate == RaisesAfterSwap(false) || fate == Filled(false))
    requires env.defaults.round6(25.0) > 0.0 && e.Cursor(P) == 1
    ensures Reached(e, env, P) && Fetched(e, env, P) == [T] && ProgressOf(e, env, cache, P, 1).done == multiset{T}
    ensures fate.RaisesAfterSwap? ==> ProgressOf(e, env, cache, P, 1).advanced == 1
  {
    OneTradeFetched(e, env);
    var v := Begin(1, e.Open("f"), Cached(e, cache, "f"));
    assert [T][..1] == [T];
    VisitOne(env.Effective(P), v, T, env.Fates(P));
    VisitSends(env.Effective(P), v, fate);
    hide Visit, VisitAll, Reached, Fetched, Decide, Cached;
    assert ProgressOf(e, env, cache, P, 1) == VisitAll(env.Effective(P), v, [T], env.Fates(P));
  }

  lemma TwoEvents(e: Engine, a: Event, b: Event)
    ensures Run(e, [a, b]) == Happen(Happen(e, a), b)
  {
    hide Happen;
    assert [a, b][..1] == [a] && [a][..0] == [];
    assert Run(e, [a]) == Happen(e, a);
  }

  // ----- a position the cache does not see

  const Q := Pair("f", "m")

  const U := Trade(8, 5, "u", "buy", 1.0)

  /** One position allowed; two leaders buy different tokens, and the first buy raises
      after its position is in. */
  function TwoLeaders(): Env {
    Env(map[], Settings(0.0, 1, false, 25.0, true, (x: real) => x), map[], map["l" := [T], "m" := [U]], {}, 9, 20,
        map[P := map[7 := RaisesAfterSwap(true)], Q := map[8 := Filled(false)]])
  }

  const TWO := Fresh(map[P := 1, Q := 1], map[])

  lemma OneFetched(e: Engine, env: Env, p: Pair, t: Trade)
    requires env.Table(p.leader) == [t] && t.block == 5 && env.limit == 20 && env.unreachable == {} && e.Cursor(p) == 1
    ensures Reached(e, env, p) && Fetched(e, env, p) == [t]
  {
    AboveStep([t], 1);
    assert [t][..0] == [] && Above([], 1) == [];
  }

  lemma OneVisited(e: Engine, env: Env, cache: Cache, p: Pair, t: Trade)
    requires env.Table(p.leader) == [t] && t.block == 5 && env.limit == 20 && env.unreachable == {} && e.Cursor(p) == 1
    ensures Reached(e, env, p) && |Fetched(e, env, p)| == 1
    ensures ProgressOf(e, env, cache, p, 1)
         == Visit(env.Effective(p), Begin(1, e.Open(p.follower), Cached(e, cache, p.follower)), t, FateOf(env.Fates(p), t))
  {
    OneFetched(e, env, p, t);
    VisitOne(env.Effective(p), Begin(1, e.Open(p.follower), Cached(e, cache, p.follower)), t, env.Fates(p));
    assert [t][..1] == [t];
    hide Visit, VisitAll, Reached, Fetched;
  }

  lemma BuyOpens(s: Settings, open: set<string>, t: Trade, fate: Fate)
    requires t.side == "buy" && t.value >= s.minBuy && s.maxOpen == 1 && PlanSize(t.value, s) > 0.0
    requires fate == RaisesAfterSwap(true) || fate == Filled(false)
    ensures Visit(s, Begin(1, open, 0), t, fate).open == open + {t.token}
    ensures fate == RaisesAfterSwap(true) ==> Visit(s, Begin(1, open, 0), t, fate).cache == 0
  {
    DecideIff(t, s, 0, t.token in open);
    hide Decide, PlanSize;
  }

  lemma FirstLeader()
    ensures var e := Serve(TWO, TwoLeaders(), NO_CACHE, P);
            e.Open("f") == {"t"} && e.Cursor(Q) == 1 && CacheAfter(TWO, TwoLeaders(), NO_CACHE, P) == map["f" := 0]
  {
    var env := TwoLeaders();
    assert TWO.Open("f") == {} && TWO.Cursor(P) == 1 && TWO.Cursor(Q) == 1;
    OneVisited(TWO, env, NO_CACHE, P, T);
    BuyOpens(env.Effective(P), {}, T, RaisesAfterSwap(true));
    ServeOpen(TWO, env, NO_CACHE, P, "f");
    assert P != Q by { assert "l" != "m"; }
    QuietCursor(TWO, env, NO_CACHE, P, Q);
    hide Serve, Visit, ProgressOf, Reached, Fetched, Engine.Open;
  }

  lemma SecondLeader(e: Engine, cache: Cache)
    requires e.Open("f") == {"t"} && e.Cursor(Q) == 1 && cache == map["f" := 0]
    ensures Serve(e, TwoLeaders(), cache, Q).Open("f") == {"t", "u"}
  {
    var env := TwoLeaders();
    OneVisited(e, env, cache, Q, U);
    BuyOpens(env.Effective(Q), {"t"}, U, Filled(false));
    ServeOpen(e, env, cache, Q, "f");
    assert {"t"} + {"u"} == {"t", "u"};
    hide Serve, Visit, ProgressOf, Reached, Fetched, Engine.Open;
  }

  function TwoPasses(): seq<Event> {
    [Pass(TwoLeaders(), [P, Q])]
  }

  /** Two positions are open although only one is allowed. */
  lemma TwoOpen()
    ensures Run(TWO, TwoPasses()).Open("f") == {"t", "u"}
  {
    hide Serve, CacheAfter, Engine.Open, Engine.Cursor, ServeAll, TwoLeaders;
    FirstLeader();
    SecondLeader(Serve(TWO, TwoLeaders(), NO_CACHE, P), CacheAfter(TWO, TwoLeaders(), NO_CACHE, P));
    TwoServed(TWO, TwoLeaders());
    assert TwoPasses()[..0] == [];
  }

  lemma TwoServed(e: Engine, env: Env)
    ensures ServeAll(e, env, [P, Q]).0 == Serve(Serve(e, env, NO_CACHE, P), env, CacheAfter(e, env, NO_CACHE, P), Q)
  {
    hide Serve, CacheAfter;
    assert [P, Q][..1] == [P] && [P][..0] == [];
    assert ServeAll(e, env, [P]) == (Serve(e, env, NO_CACHE, P), CacheAfter(e, env, NO_CACHE, P));
  }

  lemma TwoHidden()
    ensures HiddenIn(TwoPasses(), "f") <= 1 && Capped(TwoPasses(), "f", 1)
  {
    var env := TwoLeaders();
    assert [P, Q][..1] == [P] && [P][..0] == [];
    assert !Exposed(env.Fates(Q));
    hide Exposed, Env.Fates;
    assert Hidden(env, [P], "f") <= 1;
    assert Hidden(env, [P, Q], "f") <= 1;
    assert TwoPasses()[..0] == [];
  }

  ghost predicate OpenWithin(hidden: nat) {
    forall e, events, f, cap: nat :: Capped(events, f, cap) && HiddenIn(events, f) <= hidden
      ==> |Run(e, events).Open(f)| <= Max(|e.Open(f)|, cap)
  }

  /** The cap holds on all runs with at most so many exceptions after a position moved
      if and only if there are none. */
  lemma OpenWithinIff(hidden: nat)
    ensures OpenWithin(hidden) <==> hidden == 0
  {
    hide Run, Capped, HiddenIn, Engine.Open, TwoPasses;
    if hidden == 0 {
      forall e, events, f, cap: nat | Capped(events, f, cap) && HiddenIn(events, f) <= hidden
        ensures |Run(e, events).Open(f)| <= Max(|e.Open(f)|, cap)
      {
        OpenIsBounded(e, events, f, cap);
      }
    } else {
      TwoOpen();
      TwoHidden();
      NoneOpen();
      assert "t" != "u";
    }
  }

  lemma NoneOpen()
    ensures TWO.Open("f") == {} && |{"t", "u"}| == 2
  {
    assert "t"[0] != "u"[0];
  }
}
