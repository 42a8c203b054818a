/** Whole runs of the copy engine: passes over all tracked leaders, some cut short by
    a kill, over one table of cursors and positions. */
module CopyRuns {
  import opened CopyEngine

  datatype Pair = Pair(follower: string, leader: string)

  /** What one pass meets: settings, the indexed trades of each leader, the chain
      head, and the fate of every trade. */
  datatype Env = Env(settings: map<string, Settings>, defaults: Settings, flats: map<Pair, real>,
                     tables: map<string, seq<Trade>>, unreachable: set<string>, head: nat, limit: nat,
                     fates: map<Pair, map<int, Fate>>)
  {
    function SettingsOf(follower: string): Settings {
      if follower in settings then settings[follower] else defaults
    }

    /** The follower's settings with the wallet's own flat amount. */
    function Effective(p: Pair): Settings {
      if p in flats then SettingsOf(p.follower).(flat := flats[p]) else SettingsOf(p.follower)
    }

    function Table(leader: string): seq<Trade> {
      if leader in tables then tables[leader] else []
    }

    function Fates(p: Pair): map<int, Fate> {
      if p in fates then fates[p] else map[]
    }

    /** Rows come in (block, log index) order, each once. */
    ghost predicate Ok() { forall leader :: InOrder(Table(leader)) }
  }

  /** Cursors and open positions, with the history of what was sent, lost to a fault,
      and settled under the cursor. */
  datatype Engine = Engine(cursors: map<Pair, int>, open: map<string, set<string>>,
                           done: map<Pair, multiset<Trade>>, lost: map<Pair, multiset<Trade>>, log: map<Pair, seq<Trade>>,
                           bought: map<Pair, seq<Bought>>)
  {
    function Cursor(p: Pair): int { if p in cursors then cursors[p] else 0 }

    function Open(f: string): set<string> { if f in open then open[f] else {} }

    function Done(p: Pair): multiset<Trade> { if p in done then done[p] else multiset{} }

    function Lost(p: Pair): multiset<Trade> { if p in lost then lost[p] else multiset{} }

    function Log(p: Pair): seq<Trade> { if p in log then log[p] else [] }

    function Buys(p: Pair): seq<Bought> { if p in bought then bought[p] else [] }
  }

  type Cache = map<string, nat>

  const NO_CACHE: Cache := map[]

  /** `open_cache`, filled on first use. */
  function Cached(e: Engine, cache: Cache, f: string): nat {
    if f in cache then cache[f] else |e.Open(f)|
  }

  /** The block the leader's trades are fetched above: the head on the first run. */
  function StartOf(e: Engine, env: Env, p: Pair): int {
    if e.Cursor(p) <= 0 then env.head else e.Cursor(p)
  }

  function Fetched(e: Engine, env: Env, p: Pair): seq<Trade> {
    Recent(env.Table(p.leader), StartOf(e, env, p), env.limit)
  }

  predicate Reached(e: Engine, env: Env, p: Pair) {
    StartOf(e, env, p) > 0 && p.leader !in env.unreachable
  }

  /** Progress through the first n fetched trades. */
  function ProgressOf(e: Engine, env: Env, cache: Cache, p: Pair, n: nat): (v: Progress)
    requires n <= |Fetched(e, env, p)|
    ensures v.settled <= n
  {
    SettledAtMost(env.Effective(p), Begin(StartOf(e, env, p), e.Open(p.follower), Cached(e, cache, p.follower)),
                  Fetched(e, env, p)[..n], env.Fates(p));
    VisitAll(env.Effective(p), Begin(StartOf(e, env, p), e.Open(p.follower), Cached(e, cache, p.follower)),
             Fetched(e, env, p)[..n], env.Fates(p))
  }

  /** Swaps sent and positions moved, as the store and the chain see them at once. */
  function Sent(e: Engine, p: Pair, v: Progress): Engine {
    e.(open := e.open[p.follower := v.open], done := e.done[p := e.Done(p) + v.done], lost := e.lost[p := e.Lost(p) + v.lost],
       bought := e.bought[p := e.Buys(p) + v.bought])
  }

  /** `set_copy_wallet_last_block`. */
  function Wrote(e: Engine, p: Pair, block: int): Engine {
    e.(cursors := e.cursors[p := block])
  }

  function Logged(e: Engine, p: Pair, trades: seq<Trade>): Engine {
    e.(log := e.log[p := e.Log(p) + trades])
  }

  lemma WroteViews(e: Engine, p: Pair, block: int, q: Pair)
    ensures var e' := Wrote(e, p, block);
            && e'.Cursor(q) == (if p == q then block else e.Cursor(q))
            && e'.Done(q) == e.Done(q) && e'.Lost(q) == e.Lost(q) && e'.Log(q) == e.Log(q) && e'.open == e.open && e'.Buys(q) == e.Buys(q)
  {
  }

  lemma LoggedViews(e: Engine, p: Pair, trades: seq<Trade>, q: Pair)
    ensures var e' := Logged(e, p, trades);
            && e'.Log(q) == (if p == q then e.Log(q) + trades else e.Log(q))
            && e'.Cursor(q) == e.Cursor(q) && e'.Done(q) == e.Done(q) && e'.Lost(q) == e.Lost(q) && e'.open == e.open
            && e'.Buys(q) == e.Buys(q)
  {
  }

  lemma SentViews(e: Engine, p: Pair, v: Progress, q: Pair)
    ensures var e' := Sent(e, p, v);
            && e'.Done(q) == (if p == q then e.Done(q) + v.done else e.Done(q))
            && e'.Lost(q) == (if p == q then e.Lost(q) + v.lost else e.Lost(q))
            && e'.Buys(q) == (if p == q then e.Buys(q) + v.bought else e.Buys(q))
            && e'.Cursor(q) == e.Cursor(q) && e'.Log(q) == e.Log(q)
  {
  }

  /** One wallet of a pass. */
  function Serve(e: Engine, env: Env, cache: Cache, p: Pair): Engine {
    var at := Wrote(e, p, StartOf(e, env, p));
    if !Reached(e, env, p) then at
    else
      var trades := Fetched(e, env, p);
      var v := ProgressOf(e, env, cache, p, |trades|);
      Wrote(Logged(Sent(at, p, v), p, trades[..v.settled]), p, v.advanced)
  }

  function CacheAfter(e: Engine, env: Env, cache: Cache, p: Pair): Cache {
    cache[p.follower := if Reached(e, env, p) then ProgressOf(e, env, cache, p, |Fetched(e, env, p)|).cache
                        else Cached(e, cache, p.follower)]
  }

  function ServeAll(e: Engine, env: Env, pairs: seq<Pair>): (Engine, Cache) {
    if |pairs| == 0 then (e, NO_CACHE)
    else
      var (before, cache) := ServeAll(e, env, pairs[..|pairs| - 1]);
      var p := pairs[|pairs| - 1];
      (Serve(before, env, cache, p), CacheAfter(before, env, cache, p))
  }

  /** The process dies after n trades of wallet p: the cursor is not written, so
      every swap sent for p in this pass is lost to it. */
  function KilledAt(e: Engine, env: Env, cache: Cache, p: Pair, n: nat): Engine {
    var at := Wrote(e, p, StartOf(e, env, p));
    if !Reached(e, env, p) || n > |Fetched(e, env, p)| then at
    else
      var v := ProgressOf(e, env, cache, p, n);
      Sent(at, p, v.(lost := v.done))
  }

  datatype Event =
    | Pass(env: Env, pairs: seq<Pair>)
    | KilledPass(env: Env, pairs: seq<Pair>, p: Pair, n: nat)

  function Happen(e: Engine, ev: Event): Engine {
    var (after, cache) := ServeAll(e, ev.env, ev.pairs);
    if ev.KilledPass? then KilledAt(after, ev.env, cache, ev.p, ev.n) else after
  }

  function Run(e: Engine, events: seq<Event>): Engine {
    if |events| == 0 then e else Happen(Run(e, events[..|events| - 1]), events[|events| - 1])
  }

  ghost predicate AllOk(events: seq<Event>) {
    forall i :: 0 <= i < |events| ==> events[i].env.Ok()
  }

  // ----- one wallet

  lemma {:induction false} AboveInOrder(table: seq<Trade>, since: int)
    requires InOrder(table)
    ensures InOrder(Above(table, since))
  {
    if |table| > 0 {
      var before, t := table[..|table| - 1], table[|table| - 1];
      AboveInOrder(before, since);
      forall x | x in Above(before, since) ensures x.block <= t.block && x != t {
        assert x in before;
      }
      hide Above;
      var a := Above(before, since);
      forall i | 0 <= i < |a| ensures a[i].block <= t.block && a[i] != t { assert a[i] in a; }
      AboveStep(table, since);
    }
  }

  lemma AboveStep(table: seq<Trade>, since: int)
    requires |table| > 0
    ensures Above(table, since)
         == Above(table[..|table| - 1], since) + (if table[|table| - 1].block > since then [table[|table| - 1]] else [])
  {
  }

  /** The pass over a wallet's fetched trades settles a prefix of them. */
  lemma ServeSettles(e: Engine, env: Env, cache: Cache, p: Pair, n: nat)
    requires env.Ok() && n <= |Fetched(e, env, p)|
    ensures Settled(StartOf(e, env, p), Fetched(e, env, p)[..n], ProgressOf(e, env, cache, p, n))
  {
    var trades := Fetched(e, env, p)[..n];
    assert InOrder(env.Table(p.leader));
    AboveInOrder(env.Table(p.leader), StartOf(e, env, p));
    hide Settled, VisitAll, Above;
    PassSettles(env.Effective(p), StartOf(e, env, p), trades, env.Fates(p), e.Open(p.follower), Cached(e, cache, p.follower));
  }

  // ----- at most once

  /** A swap beyond those lost is settled under the cursor, and there is one at most. */
  ghost predicate OnceFor(e: Engine, p: Pair) {
    forall t :: e.Done(p)[t] <= e.Lost(p)[t] + 1 && (e.Done(p)[t] > e.Lost(p)[t] ==> t.block <= e.Cursor(p))
  }

  lemma OnceForSent(e: Engine, e': Engine, p: Pair, start: int, v: Progress)
    requires OnceFor(e, p) && start >= e.Cursor(p)
    requires e'.Done(p) == e.Done(p) + v.done && e'.Lost(p) == e.Lost(p) + v.lost && e'.Cursor(p) >= start
    requires forall t :: v.done[t] <= 1 && v.lost[t] <= v.done[t]
    requires forall t :: t in v.done ==> t.block > start
    requires forall t :: v.done[t] > v.lost[t] ==> t.block <= e'.Cursor(p)
    ensures OnceFor(e', p)
  {
    hide Engine.Done, Engine.Lost, Engine.Cursor;
    forall t ensures e'.Done(p)[t] <= e'.Lost(p)[t] + 1 && (e'.Done(p)[t] > e'.Lost(p)[t] ==> t.block <= e'.Cursor(p)) {
      assert e.Done(p)[t] <= e.Lost(p)[t] + 1;
      assert v.done[t] <= 1 && v.lost[t] <= v.done[t];
      assert e'.Done(p)[t] == e.Done(p)[t] + v.done[t] && e'.Lost(p)[t] == e.Lost(p)[t] + v.lost[t];
      if v.done[t] > 0 { assert t in v.done; }
    }
  }

  lemma SettledMoves(last: int, trades: seq<Trade>, v: Progress)
    requires Settled(last, trades, v) && forall i :: 0 <= i < |trades| ==> trades[i].block > last
    ensures v.advanced >= last && v.settled <= |trades|
  {
  }

  /** Nothing sent: the history of q is as it was and its cursor no lower. */
  ghost predicate Quiet(e: Engine, e': Engine, q: Pair) {
    e'.Done(q) == e.Done(q) && e'.Lost(q) == e.Lost(q) && e'.Log(q) == e.Log(q) && e'.Buys(q) == e.Buys(q) && e'.Cursor(q) >= e.Cursor(q)
  }

  lemma QuietKeepsOnce(e: Engine, e': Engine, q: Pair)
    requires OnceFor(e, q) && Quiet(e, e', q)
    ensures OnceFor(e', q)
  {
    hide Engine.Done, Engine.Lost, Engine.Cursor;
  }

  /** What serving and being killed come to for one wallet. */
  lemma ServeViews(e: Engine, env: Env, cache: Cache, p: Pair, q: Pair)
    ensures var e' := Serve(e, env, cache, p);
            && (p != q || !Reached(e, env, p) ==> Quiet(e, e', q))
            && (p == q && Reached(e, env, p) ==>
                  var trades := Fetched(e, env, p);
                  var v := ProgressOf(e, env, cache, p, |trades|);
                  && e'.Done(q) == e.Done(q) + v.done && e'.Lost(q) == e.Lost(q) + v.lost
                  && e'.Buys(q) == e.Buys(q) + v.bought
                  && e'.Cursor(q) == v.advanced && e'.Log(q) == e.Log(q) + trades[..v.settled])
  {
    hide ProgressOf, Fetched, Reached, Sent, Wrote, Logged, Engine.Done, Engine.Lost, Engine.Log, Engine.Buys, Engine.Cursor;
    var start := StartOf(e, env, p);
    var at := Wrote(e, p, start);
    WroteViews(e, p, start, q);
    StartIsNoLower(e, env, p);
    if Reached(e, env, p) {
      var trades := Fetched(e, env, p);
      var v := ProgressOf(e, env, cache, p, |trades|);
      SentViews(at, p, v, q);
      LoggedViews(Sent(at, p, v), p, trades[..v.settled], q);
      WroteViews(Logged(Sent(at, p, v), p, trades[..v.settled]), p, v.advanced, q);
    }
  }

  lemma StartIsNoLower(e: Engine, env: Env, p: Pair)
    ensures StartOf(e, env, p) >= e.Cursor(p)
  {
  }

  lemma KilledViews(e: Engine, env: Env, cache: Cache, p: Pair, n: nat, q: Pair)
    ensures var e' := KilledAt(e, env, cache, p, n);
            && (p != q || !Reached(e, env, p) || n > |Fetched(e, env, p)| ==> Quiet(e, e', q))
            && (p == q && Reached(e, env, p) && n <= |Fetched(e, env, p)| ==>
                  var v := ProgressOf(e, env, cache, p, n);
                  && e'.Done(q) == e.Done(q) + v.done && e'.Lost(q) == e.Lost(q) + v.done
                  && e'.Buys(q) == e.Buys(q) + v.bought
                  && e'.Cursor(q) == StartOf(e, env, p) && e'.Log(q) == e.Log(q))
  {
    hide ProgressOf, Fetched, Reached, Sent, Wrote, Engine.Done, Engine.Lost, Engine.Log, Engine.Buys, Engine.Cursor, StartOf;
    var start := StartOf(e, env, p);
    var at := Wrote(e, p, start);
    WroteViews(e, p, start, q);
    StartIsNoLower(e, env, p);
    if Reached(e, env, p) && n <= |Fetched(e, env, p)| {
      var v := ProgressOf(e, env, cache, p, n);
      SentViews(at, p, v.(lost := v.done), q);
    }
  }

  /** Serving a wallet never moves a cursor back and keeps the at-most-once invariant. */
  lemma ServeKeepsOnce(e: Engine, env: Env, cache: Cache, p: Pair, q: Pair)
    requires env.Ok() && OnceFor(e, q)
    ensures OnceFor(Serve(e, env, cache, p), q) && Serve(e, env, cache, p).Cursor(q) >= e.Cursor(q)
  {
    hide OnceFor, Serve, ProgressOf, Fetched, Reached, Engine.Done, Engine.Lost, Engine.Log, Engine.Buys, Engine.Cursor;
    var e' := Serve(e, env, cache, p);
    ServeViews(e, env, cache, p, q);
    if p != q || !Reached(e, env, p) {
      QuietKeepsOnce(e, e', q);
    } else {
      var trades, start := Fetched(e, env, p), StartOf(e, env, p);
      assert trades[..|trades|] == trades;
      ServeSettles(e, env, cache, p, |trades|);
      FetchedAreAbove(e, env, p);
      StartIsNoLower(e, env, p);
      var v := ProgressOf(e, env, cache, p, |trades|);
      SettledMoves(start, trades, v);
      OnceForSent(e, e', p, start, v);
    }
  }

  lemma FetchedAreAbove(e: Engine, env: Env, p: Pair)
    ensures forall i :: 0 <= i < |Fetched(e, env, p)| ==> Fetched(e, env, p)[i].block > StartOf(e, env, p)
  {
    hide Above;
  }

  lemma KilledKeepsOnce(e: Engine, env: Env, cache: Cache, p: Pair, n: nat, q: Pair)
    requires env.Ok() && OnceFor(e, q)
    ensures OnceFor(KilledAt(e, env, cache, p, n), q) && KilledAt(e, env, cache, p, n).Cursor(q) >= e.Cursor(q)
  {
    hide OnceFor, KilledAt, ProgressOf, Fetched, Reached, Engine.Done, Engine.Lost, Engine.Log, Engine.Buys, Engine.Cursor;
    var e' := KilledAt(e, env, cache, p, n);
    KilledViews(e, env, cache, p, n, q);
    if p != q || !Reached(e, env, p) || n > |Fetched(e, env, p)| {
      QuietKeepsOnce(e, e', q);
    } else {
      ServeSettles(e, env, cache, p, n);
      StartIsNoLower(e, env, p);
      var v := ProgressOf(e, env, cache, p, n);
      OnceForSent(e, e', p, StartOf(e, env, p), v.(lost := v.done));
    }
  }

  lemma {:induction false} ServeAllKeepsOnce(e: Engine, env: Env, pairs: seq<Pair>, q: Pair)
    requires env.Ok() && OnceFor(e, q)
    ensures OnceFor(ServeAll(e, env, pairs).0, q) && ServeAll(e, env, pairs).0.Cursor(q) >= e.Cursor(q)
  {
    if |pairs| > 0 {
      var before := pairs[..|pairs| - 1];
      ServeAllKeepsOnce(e, env, before, q);
      hide Serve, CacheAfter, OnceFor, Engine.Cursor;
      ServeKeepsOnce(ServeAll(e, env, before).0, env, ServeAll(e, env, before).1, pairs[|pairs| - 1], q);
    }
  }

  /** Over any sequence of passes, completed or killed, no cursor decreases, and a
      leader's trade is sent at most once more than a fault hid it from the cursor. */
  lemma {:induction false} RunKeepsOnce(e: Engine, events: seq<Event>, q: Pair)
    requires AllOk(events) && OnceFor(e, q)
    ensures OnceFor(Run(e, events), q) && Run(e, events).Cursor(q) >= e.Cursor(q)
  {
    if |events| > 0 {
      var before, ev := events[..|events| - 1], events[|events| - 1];
      RunKeepsOnce(e, before, q);
      var now := Run(e, before);
      assert ev.env.Ok();
      hide KilledAt, ServeAll, OnceFor, Engine.Cursor, Env.Ok;
      ServeAllKeepsOnce(now, ev.env, ev.pairs, q);
      if ev.KilledPass? {
        KilledKeepsOnce(ServeAll(now, ev.env, ev.pairs).0, ev.env, ServeAll(now, ev.env, ev.pairs).1, ev.p, ev.n, q);
      }
    }
  }

  // ----- the engine itself

  class CopyStore {
    var cursors: map<Pair, int>
    var open: map<string, set<string>>
    ghost var done: map<Pair, multiset<Trade>>
    ghost var lost: map<Pair, multiset<Trade>>
    ghost var log: map<Pair, seq<Trade>>
    ghost var bought: map<Pair, seq<Bought>>

    ghost function View(): Engine
      reads this
    {
      Engine(cursors, open, done, lost, log, bought)
    }

    constructor (cursors: map<Pair, int>, open: map<string, set<string>>)
      ensures View() == Engine(cursors, open, map[], map[], map[], map[])
    {
      this.cursors, this.open := cursors, open;
      done, lost, log, bought := map[], map[], map[], map[];
    }

    function GetCursor(p: Pair): int
      reads this
    {
      if p in cursors then cursors[p] else 0
    }

    function OpenOf(f: string): set<string>
      reads this
    {
      if f in open then open[f] else {}
    }

    /** `run_copy_engine`, a pass that is neither dry nor killed. */
    method RunCopyEngine(env: Env, pairs: seq<Pair>)
      modifies this
      ensures View() == ServeAll(old(View()), env, pairs).0
    {
      hide Serve, CacheAfter, View;
      ghost var e := View();
      var cache := NO_CACHE;
      for i := 0 to |pairs|
        invariant ServeAll(e, env, pairs[..i]) == (View(), cache)
      {
        assert pairs[..i + 1][..i] == pairs[..i];
        cache := ServeWallet(env, cache, pairs[i]);
      }
      assert pairs[..|pairs|] == pairs;
    }

    /** Lines 101-164 for one tracked wallet. */
    method ServeWallet(env: Env, cache: Cache, p: Pair) returns (cache': Cache)
      modifies this
      ensures View() == Serve(old(View()), env, cache, p)
      ensures cache' == CacheAfter(old(View()), env, cache, p)
    {
      hide VisitAll, Recent, Begin, Wrote, Sent, Logged, StartOf, View, Env.Effective, Env.Table, Env.Fates;
      ghost var e := View();
      ViewIs(p);
      cache' := if p.follower in cache then cache else cache[p.follower := |OpenOf(p.follower)|];
      var last := StartCursor(env, p);
      assert cache'[p.follower := cache'[p.follower]] == cache';
      if last > 0 && p.leader !in env.unreachable {
        var trades := Recent(env.Table(p.leader), last, env.limit);
        RecentIsAbove(env.Table(p.leader), last, env.limit);
        assert trades[..|trades|] == trades;
        var v := MirrorTrades(env.Effective(p), last, trades, env.Fates(p), OpenOf(p.follower), cache'[p.follower]);
        assert v == ProgressOf(e, env, cache, p, |trades|);
        Commit(p, last, v, trades);
        cache' := cache'[p.follower := v.cache];
      }
    }

    lemma ViewIs(p: Pair)
      ensures View().Cursor(p) == GetCursor(p) && View().Open(p.follower) == OpenOf(p.follower)
    {
    }

    /** Lines 107-112: the first run starts at the head and says so. */
    method StartCursor(env: Env, p: Pair) returns (last: int)
      modifies this`cursors
      ensures last == StartOf(old(View()), env, p) && View() == Wrote(old(View()), p, last)
      ensures last == GetCursor(p)
    {
      last := GetCursor(p);
      if last <= 0 {
        last := env.head;
        cursors := cursors[p := last];
      } else {
        assert cursors[p := last] == cursors;
      }
    }

    /** The positions moved, and the cursor when it advanced. */
    method Commit(p: Pair, last: int, v: Progress, trades: seq<Trade>)
      requires GetCursor(p) == last > 0 && v.settled <= |trades|
      modifies this
      ensures View() == Wrote(Logged(Sent(old(View()), p, v), p, trades[..v.settled]), p, v.advanced)
    {
      ghost var e := View();
      open := open[p.follower := v.open];
      done, lost := done[p := e.Done(p) + v.done], lost[p := e.Lost(p) + v.lost];
      bought := bought[p := e.Buys(p) + v.bought];
      assert View() == Sent(e, p, v);
      log := log[p := e.Log(p) + trades[..v.settled]];
      assert View() == Logged(Sent(e, p, v), p, trades[..v.settled]);
      hide Sent, Logged;
      if v.advanced != last {
        cursors := cursors[p := v.advanced];
      } else {
        assert cursors[p := last] == cursors;
      }
    }
  }

  lemma RecentIsAbove(table: seq<Trade>, since: int, limit: nat)
    ensures forall i :: 0 <= i < |Recent(table, since, limit)| ==> Recent(table, since, limit)[i].block > since
  {
  }
}
