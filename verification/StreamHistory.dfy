/** Whole runs of the alert engine: pruned caches against the full history of legs, and restarts. */
module StreamHistory {
  import opened Options
  import opened Numbers
  import opened Lists
  import opened Series
  import opened StreamAlerts

  // ----- runs

  const EMPTY := Core({}, map[], map[], map[], map[], map[], map[], map[])

  function CoreRun(p: Params, c: Core, creators: map<string, string>, legs: seq<Leg>): Core
    requires p.Ok()
  {
    if |legs| == 0 then c
    else CoreStep(p, CoreRun(p, c, creators, legs[..|legs| - 1]), creators, legs[|legs| - 1])
  }

  function RunAlerts(p: Params, c: Core, creators: map<string, string>, legs: seq<Leg>): seq<Alert>
    requires p.Ok()
  {
    if |legs| == 0 then []
    else
      var before := legs[..|legs| - 1];
      RunAlerts(p, c, creators, before) + CoreAlerts(p, CoreRun(p, c, creators, before), creators, legs[|legs| - 1])
  }

  /** What a run that emits throughout remembers, and all it reports. */
  function LiveRun(p: Params, c: Core, mem: Memory, creators: map<string, string>, legs: seq<Leg>): (Memory, seq<Alert>)
    requires p.Ok()
  {
    if |legs| == 0 then (mem, [])
    else
      var before, leg := legs[..|legs| - 1], legs[|legs| - 1];
      var (now, alerts) := LiveRun(p, c, mem, creators, before);
      var at := CoreRun(p, c, creators, before);
      (Remember(p, at, now, creators, leg), alerts + AllAlerts(p, at, now, creators, leg))
  }

  /** `apply_legs`: the core moves alike whether or not alerts are emitted. */
  method ApplyLegs(state: IncrementalState, legs: seq<Leg>, creators: map<string, string>, emit: bool)
    returns (out: seq<Alert>)
    requires state.p.Ok()
    modifies state
    ensures state.View() == CoreRun(state.p, old(state.View()), creators, legs)
    ensures CoreOnly(out) == if emit then RunAlerts(state.p, old(state.View()), creators, legs) else []
    ensures emit ==> (state.Mem(), out) == LiveRun(state.p, old(state.View()), old(state.Mem()), creators, legs)
    ensures !emit ==> out == [] && state.Mem() == old(state.Mem())
  {
    hide CoreStep, CoreAlerts, CoreOnly, AllAlerts, Remember, IncrementalState.View, IncrementalState.Mem;
    ghost var c, mem := state.View(), state.Mem();
    out := [];
    CoreOnlyNone();
    for i := 0 to |legs|
      invariant state.View() == CoreRun(state.p, c, creators, legs[..i])
      invariant CoreOnly(out) == if emit then RunAlerts(state.p, c, creators, legs[..i]) else []
      invariant emit ==> (state.Mem(), out) == LiveRun(state.p, c, mem, creators, legs[..i])
      invariant !emit ==> out == [] && state.Mem() == mem
    {
      RunOneMore(state.p, c, creators, legs, i);
      LiveOneMore(state.p, c, mem, creators, legs, i);
      var alerts := state.ApplyLeg(legs[i], creators, emit);
      CoreOnlyConcat(out, alerts);
      out := out + alerts;
    }
    assert legs[..|legs|] == legs;
  }

  lemma LiveOneMore(p: Params, c: Core, mem: Memory, creators: map<string, string>, legs: seq<Leg>, i: nat)
    requires p.Ok() && i < |legs|
    ensures var (now, alerts) := LiveRun(p, c, mem, creators, legs[..i]);
            var at := CoreRun(p, c, creators, legs[..i]);
            LiveRun(p, c, mem, creators, legs[..i + 1])
            == (Remember(p, at, now, creators, legs[i]), alerts + AllAlerts(p, at, now, creators, legs[i]))
  {
    hide CoreRun, AllAlerts, Remember;
    assert legs[..i + 1][..i] == legs[..i];
  }

  lemma RunOneMore(p: Params, c: Core, creators: map<string, string>, legs: seq<Leg>, i: nat)
    requires p.Ok() && i < |legs|
    ensures CoreRun(p, c, creators, legs[..i + 1]) == CoreStep(p, CoreRun(p, c, creators, legs[..i]), creators, legs[i])
    ensures RunAlerts(p, c, creators, legs[..i + 1])
         == RunAlerts(p, c, creators, legs[..i]) + CoreAlerts(p, CoreRun(p, c, creators, legs[..i]), creators, legs[i])
  {
    hide CoreStep, CoreAlerts;
    var now := legs[..i + 1];
    assert now[..|now| - 1] == legs[..i];
  }

  /** A rebuild over `history` followed by `live` legs ends in the state of one run
      over both, and reports exactly what that run reports after `history`. */
  lemma {:induction false} RebuildThenLive(p: Params, c: Core, creators: map<string, string>, history: seq<Leg>, live: seq<Leg>)
    requires p.Ok()
    ensures var rebuilt := CoreRun(p, c, creators, history);
            && CoreRun(p, rebuilt, creators, live) == CoreRun(p, c, creators, history + live)
            && RunAlerts(p, c, creators, history + live)
               == RunAlerts(p, c, creators, history) + RunAlerts(p, rebuilt, creators, live)
  {
    hide CoreStep, CoreAlerts;
    if |live| == 0 {
      assert history + live == history;
    } else {
      var before := live[..|live| - 1];
      assert (history + live)[..|history + live| - 1] == history + before;
      RebuildThenLive(p, c, creators, history, before);
    }
  }

  /** Rows of the legs table up to a cursor block, and after it. */
  function UpTo(rows: seq<Leg>, cursor: int): seq<Leg> {
    if |rows| == 0 then []
    else UpTo(rows[..|rows| - 1], cursor) + (if rows[|rows| - 1].block <= cursor then [rows[|rows| - 1]] else [])
  }

  function Newer(rows: seq<Leg>, cursor: int): seq<Leg> {
    if |rows| == 0 then []
    else Newer(rows[..|rows| - 1], cursor) + (if rows[|rows| - 1].block > cursor then [rows[|rows| - 1]] else [])
  }

  lemma {:induction false} NoneNewer(rows: seq<Leg>, cursor: int)
    requires forall i :: 0 <= i < |rows| ==> rows[i].block <= cursor
    ensures UpTo(rows, cursor) == rows && Newer(rows, cursor) == []
  {
    if |rows| > 0 {
      var before, last := rows[..|rows| - 1], rows[|rows| - 1];
      assert before + [last] == rows && last.block <= cursor;
      hide UpTo, Newer;
      NoneNewer(before, cursor);
      CutMore(before, last, cursor);
    }
  }

  lemma CutMore(rows: seq<Leg>, leg: Leg, cursor: int)
    ensures UpTo(rows + [leg], cursor) == if leg.block <= cursor then UpTo(rows, cursor) + [leg] else UpTo(rows, cursor)
    ensures Newer(rows + [leg], cursor) == if leg.block > cursor then Newer(rows, cursor) + [leg] else Newer(rows, cursor)
  {
    assert (rows + [leg])[..|rows|] == rows;
  }

  /** In block order the cursor cuts the table in two. */
  lemma {:induction false} CursorCuts(rows: seq<Leg>, cursor: int)
    requires Ordered(rows)
    ensures UpTo(rows, cursor) + Newer(rows, cursor) == rows
  {
    if |rows| > 0 {
      var before, last := rows[..|rows| - 1], rows[|rows| - 1];
      assert rows == before + [last];
      if last.block <= cursor {
        NoneNewer(rows, cursor);
      } else {
        CursorCuts(before, cursor);
      }
    }
  }

  /** `build_initial_state`: the history up to the cursor, without alerts. */
  method BuildInitialState(state: IncrementalState, rows: seq<Leg>, creators: map<string, string>, upto: int)
    requires state.p.Ok()
    modifies state
    ensures state.View() == CoreRun(state.p, old(state.View()), creators, UpTo(rows, upto))
  {
    hide CoreRun, CoreStep, IncrementalState.View;
    ghost var c := state.View();
    NothingRun(state.p, c, creators, rows, upto);
    for i := 0 to |rows|
      invariant state.View() == CoreRun(state.p, c, creators, UpTo(rows[..i], upto))
    {
      UpToMore(rows, i, upto);
      if rows[i].block <= upto {
        CoreRunMore(state.p, c, creators, UpTo(rows[..i], upto), rows[i]);
        var alerts := state.ApplyLeg(rows[i], creators, false);
      }
    }
    assert rows[..|rows|] == rows;
  }

  lemma UpToMore(rows: seq<Leg>, i: nat, cursor: int)
    requires i < |rows|
    ensures UpTo(rows[..i + 1], cursor) == if rows[i].block <= cursor then UpTo(rows[..i], cursor) + [rows[i]] else UpTo(rows[..i], cursor)
  {
    assert rows[..i + 1][..i] == rows[..i];
  }

  lemma NothingRun(p: Params, c: Core, creators: map<string, string>, rows: seq<Leg>, upto: int)
    requires p.Ok()
    ensures CoreRun(p, c, creators, UpTo(rows[..0], upto)) == c
  {
  }

  lemma CoreRunMore(p: Params, c: Core, creators: map<string, string>, legs: seq<Leg>, leg: Leg)
    requires p.Ok()
    ensures CoreRun(p, c, creators, legs + [leg]) == CoreStep(p, CoreRun(p, c, creators, legs), creators, leg)
  {
    hide CoreStep;
    assert (legs + [leg])[..|legs|] == legs;
  }

  /** A restart from the legs table: rebuilding up to the cursor and going live after it
      ends in the state of one live run over the whole table, and reports exactly what
      that run reports after the cursor. */
  lemma RestartMatchesLiveRun(p: Params, creators: map<string, string>, rows: seq<Leg>, cursor: int)
    requires p.Ok() && Ordered(rows)
    ensures var rebuilt := CoreRun(p, EMPTY, creators, UpTo(rows, cursor));
            && CoreRun(p, rebuilt, creators, Newer(rows, cursor)) == CoreRun(p, EMPTY, creators, rows)
            && RunAlerts(p, EMPTY, creators, rows)
               == RunAlerts(p, EMPTY, creators, UpTo(rows, cursor)) + RunAlerts(p, rebuilt, creators, Newer(rows, cursor))
  {
    CursorCuts(rows, cursor);
    RebuildThenLive(p, EMPTY, creators, UpTo(rows, cursor), Newer(rows, cursor));
  }

  // ----- the full history of a token

  /** Traded value per bucket of the legs picked by `side` (all when None). */
  function Traded(p: Params, legs: seq<Leg>, t: string, side: Option<Side>): Bucketed
    requires p.Ok()
  {
    if |legs| == 0 then map[]
    else
      var before, leg := Traded(p, legs[..|legs| - 1], t, side), legs[|legs| - 1];
      if leg.Token() == t && (side == None || side == Some(leg.side)) then Bump(before, leg.Bucket(p), leg.sv) else before
  }

  /** Last positive price of every bucket. */
  function Priced(p: Params, legs: seq<Leg>, t: string): Bucketed
    requires p.Ok()
  {
    if |legs| == 0 then map[]
    else
      var before, leg := Priced(p, legs[..|legs| - 1], t), legs[|legs| - 1];
      if leg.Token() == t && leg.Price() > 0.0 then before[leg.Bucket(p) := leg.Price()] else before
  }

  predicate Ordered(legs: seq<Leg>) {
    forall i, j :: 0 <= i < j < |legs| ==> legs[i].block <= legs[j].block
  }

  lemma BucketsRise(p: Params, a: Leg, b: Leg)
    requires p.Ok() && a.block <= b.block
    ensures a.Bucket(p) <= b.Bucket(p)
  {
    DivisionRises(a.block, b.block, p.bucketBlocks);
  }

  /** In block order every bucket of the history is at most the last leg's. */
  lemma {:induction false} HistoryUpto(p: Params, legs: seq<Leg>, t: string, side: Option<Side>, b: int)
    requires p.Ok() && forall i :: 0 <= i < |legs| ==> legs[i].Bucket(p) <= b
    ensures Upto(Traded(p, legs, t, side), b) && Upto(Priced(p, legs, t), b)
  {
    if |legs| > 0 {
      hide Leg.Price, Leg.Token;
      HistoryUpto(p, legs[..|legs| - 1], t, side, b);
    }
  }

  lemma BeforeLast(p: Params, legs: seq<Leg>)
    requires p.Ok() && Ordered(legs) && |legs| > 0
    ensures forall i :: 0 <= i < |legs| ==> legs[i].Bucket(p) <= legs[|legs| - 1].Bucket(p)
  {
    forall i | 0 <= i < |legs| ensures legs[i].Bucket(p) <= legs[|legs| - 1].Bucket(p) {
      BucketsRise(p, legs[i], legs[|legs| - 1]);
    }
  }

  // ----- the caches are the newest buckets of the full history

  ghost predicate Caches(p: Params, c: Core, legs: seq<Leg>, t: string)
    requires p.Ok()
  {
    && Of(c.volume, t) == Newest(Traded(p, legs, t, None), p.Keep())
    && Of(c.prices, t) == Newest(Priced(p, legs, t), p.Keep())
    && Of(c.buys, t) == Newest(Traded(p, legs, t, Some(Buy)), p.Keep())
    && Of(c.sells, t) == Newest(Traded(p, legs, t, Some(Sell)), p.Keep())
  }

  lemma WriteTracks(c: Cache, token: string, full: Bucketed, b: int, v: real, keep: nat)
    requires Of(c, token) == Newest(full, keep) && Upto(full, b)
    ensures Of(Write(c, token, b, v, keep), token) == Newest(full[b := v], keep)
    ensures Of(Add(c, token, b, v, keep), token) == Newest(Bump(full, b, v), keep)
  {
    NewestKeepsLast(full, keep, b);
    PruneAfterWrite(full, keep, b, v);
    PruneAfterWrite(full, keep, b, At(full, b) + v);
    hide Newest;
  }

  lemma WriteElsewhere(c: Cache, token: string, other: string, b: int, v: real, keep: nat)
    requires token != other
    ensures Of(Write(c, token, b, v, keep), other) == Of(c, other)
    ensures Of(Add(c, token, b, v, keep), other) == Of(c, other)
  {
    hide Newest;
  }

  lemma TradedStep(p: Params, cache: Cache, legs: seq<Leg>, t: string, side: Option<Side>)
    requires p.Ok() && |legs| > 0 && Ordered(legs)
    requires Of(cache, t) == Newest(Traded(p, legs[..|legs| - 1], t, side), p.Keep())
    ensures var leg := legs[|legs| - 1];
            Of(if side == None || side == Some(leg.side) then Add(cache, leg.Token(), leg.Bucket(p), leg.sv, p.Keep()) else cache, t)
            == Newest(Traded(p, legs, t, side), p.Keep())
  {
    var before, leg := legs[..|legs| - 1], legs[|legs| - 1];
    var b := leg.Bucket(p);
    BeforeLast(p, legs);
    HistoryUpto(p, before, t, side, b);
    hide Newest, Upto, Add, Of, Bump, Leg.Price, Leg.Token, Leg.Bucket;
    if leg.Token() == t {
      WriteTracks(cache, t, Traded(p, before, t, side), b, leg.sv, p.Keep());
    } else {
      WriteElsewhere(cache, leg.Token(), t, b, leg.sv, p.Keep());
    }
  }

  lemma PricedStep(p: Params, cache: Cache, legs: seq<Leg>, t: string)
    requires p.Ok() && |legs| > 0 && Ordered(legs)
    requires Of(cache, t) == Newest(Priced(p, legs[..|legs| - 1], t), p.Keep())
    ensures var leg := legs[|legs| - 1];
            Of(if leg.Price() > 0.0 then Write(cache, leg.Token(), leg.Bucket(p), leg.Price(), p.Keep()) else cache, t)
            == Newest(Priced(p, legs, t), p.Keep())
  {
    var before, leg := legs[..|legs| - 1], legs[|legs| - 1];
    var b := leg.Bucket(p);
    BeforeLast(p, legs);
    HistoryUpto(p, before, t, None, b);
    hide Newest, Upto, Write, Of, Leg.Price, Leg.Token, Leg.Bucket;
    if leg.Token() == t {
      WriteTracks(cache, t, Priced(p, before, t), b, leg.Price(), p.Keep());
    } else {
      WriteElsewhere(cache, leg.Token(), t, b, leg.Price(), p.Keep());
    }
  }

  lemma CachesStep(p: Params, c: Core, legs: seq<Leg>, t: string)
    requires p.Ok() && |legs| > 0 && Ordered(legs)
    requires Caches(p, c, legs[..|legs| - 1], t)
    ensures Caches(p, Record(p, c, legs[|legs| - 1]), legs, t)
  {
    hide Newest, Upto, Add, Write, Of, Traded, Priced, Leg.Price, Leg.Token, Leg.Bucket;
    TradedStep(p, c.volume, legs, t, None);
    PricedStep(p, c.prices, legs, t);
    TradedStep(p, c.buys, legs, t, Some(Buy));
    TradedStep(p, c.sells, legs, t, Some(Sell));
  }

  /** Positions and signals leave the caches alone. */
  lemma StepCaches(p: Params, c: Core, creators: map<string, string>, leg: Leg, legs: seq<Leg>, t: string)
    requires p.Ok()
    requires Caches(p, Record(p, c, leg), legs, t)
    ensures Caches(p, CoreStep(p, c, creators, leg), legs, t)
    ensures Caches(p, MovePosition(Record(p, c, leg), creators, leg), legs, t)
  {
    hide Record, MovePosition, Signalled, Traded, Priced, Newest, Of;
    var r := Record(p, c, leg);
    PositionsKeepCaches(r, creators, leg);
    SignalsKeepCaches(p, MovePosition(r, creators, leg), leg);
  }

  lemma PositionsKeepCaches(c: Core, creators: map<string, string>, leg: Leg)
    ensures var m := MovePosition(c, creators, leg);
            m.volume == c.volume && m.prices == c.prices && m.buys == c.buys && m.sells == c.sells
            && m.lastCollapse == c.lastCollapse && m.lastSpike == c.lastSpike
  {
    hide Moved;
  }

  lemma SignalsKeepCaches(p: Params, c: Core, leg: Leg)
    requires p.Ok()
    ensures var m := Signalled(p, c, leg);
            m.volume == c.volume && m.prices == c.prices && m.buys == c.buys && m.sells == c.sells
  {
    hide Collapses, Spikes;
  }

  /** For any block-ordered run every cache is the newest 4 * lookback buckets of its full history. */
  lemma {:induction false} CachesAreNewest(p: Params, creators: map<string, string>, legs: seq<Leg>, t: string)
    requires p.Ok() && Ordered(legs)
    ensures Caches(p, CoreRun(p, EMPTY, creators, legs), legs, t)
  {
    if |legs| == 0 {
      hide CoreStep;
    } else {
      var before, leg := legs[..|legs| - 1], legs[|legs| - 1];
      CachesAreNewest(p, creators, before, t);
      var c := CoreRun(p, EMPTY, creators, before);
      hide CoreStep, Caches, Record;
      CachesStep(p, c, legs, t);
      StepCaches(p, c, creators, leg, legs, t);
    }
  }

  // ----- what the rules read

  /** The core in which the signals of the last leg are computed. */
  function Scene(p: Params, creators: map<string, string>, legs: seq<Leg>): Core
    requires p.Ok() && |legs| > 0
  {
    MovePosition(Record(p, CoreRun(p, EMPTY, creators, legs[..|legs| - 1]), legs[|legs| - 1]), creators, legs[|legs| - 1])
  }

  lemma SceneCaches(p: Params, creators: map<string, string>, legs: seq<Leg>)
    requires p.Ok() && |legs| > 0 && Ordered(legs)
    ensures Caches(p, Scene(p, creators, legs), legs, legs[|legs| - 1].Token())
  {
    var before, leg := legs[..|legs| - 1], legs[|legs| - 1];
    CachesAreNewest(p, creators, before, leg.Token());
    hide Caches, Record, CoreStep, MovePosition, CoreRun;
    var c := CoreRun(p, EMPTY, creators, before);
    CachesStep(p, c, legs, leg.Token());
    StepCaches(p, c, creators, leg, legs, leg.Token());
  }

  /** The z-score of the leg's bucket is that of the full history, for every lookback. */
  lemma ZScoreIsExact(p: Params, creators: map<string, string>, legs: seq<Leg>)
    requires p.Ok() && |legs| > 0 && Ordered(legs)
    ensures var leg := legs[|legs| - 1];
            BucketZ(p, Scene(p, creators, legs), leg) == LastZ(Traded(p, legs, leg.Token(), None), p.lookback, p.sqrt)
  {
    var leg := legs[|legs| - 1];
    var full, c := Traded(p, legs, leg.Token(), None), Scene(p, creators, legs);
    SceneCaches(p, creators, legs);
    BeforeLast(p, legs);
    HistoryUpto(p, legs, leg.Token(), None, leg.Bucket(p));
    assert leg.Bucket(p) in full;
    NewestBucketOfHistory(full, p.Keep(), leg.Bucket(p));
    LastZSurvives(full, p.Keep(), p.lookback, p.sqrt);
    hide Traded, Priced, LastZ, Newest, NewestBucket, Scene, Leg.Bucket, Leg.Token;
  }

  /** The volume of the current bucket is that of the full history. */
  lemma VolumeNow(p: Params, legs: seq<Leg>)
    requires p.Ok() && |legs| > 0 && Ordered(legs)
    ensures var leg := legs[|legs| - 1];
            At(Newest(Traded(p, legs, leg.Token(), None), p.Keep()), leg.Bucket(p))
            == At(Traded(p, legs, leg.Token(), None), leg.Bucket(p))
  {
    hide Traded, Newest, At, Leg.Token, Leg.Bucket, Ordered, Upto;
    var leg := legs[|legs| - 1];
    BeforeLast(p, legs);
    HistoryUpto(p, legs, leg.Token(), None, leg.Bucket(p));
    NewestKeepsLast(Traded(p, legs, leg.Token(), None), p.Keep(), leg.Bucket(p));
  }

  lemma NewestBucketOfHistory(m: Bucketed, keep: nat, b: int)
    requires Upto(m, b) && b in m
    ensures NewestBucket(Newest(m, keep)) == Some(b)
  {
    var d := Newest(m, keep);
    assert Above(m, b) == {};
    assert b in d && Upto(d, b);
    SortedIsAscending(d.Keys);
    hide Sorted, Newest;
    var ks := Sorted(d.Keys);
    assert b in ks;
    var i :| 0 <= i < |ks| && ks[i] == b;
    assert ks[|ks| - 1] in ks;
  }

  /** The look-back price is that of the full history, for every lookback. */
  lemma PriceUpIsExact(p: Params, creators: map<string, string>, legs: seq<Leg>)
    requires p.Ok() && |legs| > 0 && Ordered(legs)
    ensures var leg := legs[|legs| - 1];
            PriceUp(p, Scene(p, creators, legs), leg) == RisenSince(p, Priced(p, legs, leg.Token()), leg.Bucket(p))
  {
    var leg := legs[|legs| - 1];
    hide Traded, Priced, Newest, Scene, RisenSince, Leg.Bucket, Leg.Token, Ordered, Upto;
    var full, b := Priced(p, legs, leg.Token()), leg.Bucket(p);
    SceneCaches(p, creators, legs);
    BeforeLast(p, legs);
    HistoryUpto(p, legs, leg.Token(), None, b);
    RisenSurvives(p, full, b);
  }

  /** The price the surge rule compares with is that of the full history, for every lookback. */
  lemma PastPriceIsExact(p: Params, creators: map<string, string>, legs: seq<Leg>)
    requires p.Ok() && |legs| > 0 && Ordered(legs)
    ensures var t, b := legs[|legs| - 1].Token(), legs[|legs| - 1].Bucket(p);
            PastPrice(p, Of(Scene(p, creators, legs).prices, t), b) == PastPrice(p, Priced(p, legs, t), b)
  {
    hide Traded, Priced, Newest, Scene, PastPrice, Leg.Bucket, Leg.Token, Ordered, Upto, Of;
    var t, b := legs[|legs| - 1].Token(), legs[|legs| - 1].Bucket(p);
    SceneCaches(p, creators, legs);
    BeforeLast(p, legs);
    HistoryUpto(p, legs, t, None, b);
    PastPriceSurvives(p, Priced(p, legs, t), b);
  }

  lemma PastPriceSurvives(p: Params, full: Bucketed, b: int)
    requires Upto(full, b)
    ensures PastPrice(p, Newest(full, p.Keep()), b) == PastPrice(p, full, b)
  {
    PastValueSurvives(full, p.Keep(), b, p.lookback);
  }

  lemma RisenSurvives(p: Params, full: Bucketed, b: int)
    requires Upto(full, b)
    ensures RisenSince(p, Newest(full, p.Keep()), b) == RisenSince(p, full, b)
  {
    PastPriceSurvives(p, full, b);
    NewestKeepsLast(full, p.Keep(), b);
    hide Newest, PastPrice, At;
  }

  /** Seven-bucket sums over the pruned and the full history of one series agree. */
  ghost predicate SumsAgree(p: Params, legs: seq<Leg>, side: Option<Side>)
    requires p.Ok() && |legs| > 0
  {
    var leg := legs[|legs| - 1];
    var full := Traded(p, legs, leg.Token(), side);
    SumFrom(Newest(full, p.Keep()), leg.Bucket(p) - 6) == SumFrom(full, leg.Bucket(p) - 6)
  }

  /** Recent volume and flow are those of the full history whenever lookback is not 1. */
  lemma RecentIsExact(p: Params, legs: seq<Leg>, side: Option<Side>)
    requires p.Ok() && |legs| > 0 && Ordered(legs) && p.lookback != 1
    ensures SumsAgree(p, legs, side)
  {
    hide Traded, SumFrom, Newest, Ordered, Upto, Leg.Bucket, Leg.Token;
    var leg := legs[|legs| - 1];
    BeforeLast(p, legs);
    HistoryUpto(p, legs, leg.Token(), side, leg.Bucket(p));
    RecentSumSurvives(Traded(p, legs, leg.Token(), side), p.Keep(), leg.Bucket(p), 7);
  }

  function Nth(p: Params, i: nat): Leg {
    Leg("t", "w", i * p.bucketBlocks, 1.0, 1.0, Buy)
  }

  lemma NthBucket(p: Params, i: nat)
    requires p.Ok()
    ensures Nth(p, i).Bucket(p) == i
  {
    MultipleDivides(i, p.bucketBlocks);
  }

  function OnePerBucket(p: Params, n: nat): seq<Leg> {
    if n == 0 then [] else OnePerBucket(p, n - 1) + [Nth(p, n - 1)]
  }

  lemma {:induction false} OnePerBucketIs(p: Params, n: nat)
    requires p.Ok()
    ensures |OnePerBucket(p, n)| == n && forall i :: 0 <= i < n ==> OnePerBucket(p, n)[i] == Nth(p, i)
  {
    if n > 0 { OnePerBucketIs(p, n - 1); }
  }

  lemma OnePerBucketOrdered(p: Params, n: nat)
    requires p.Ok()
    ensures Ordered(OnePerBucket(p, n))
  {
    OnePerBucketIs(p, n);
    var legs := OnePerBucket(p, n);
    forall i, j | 0 <= i < j < |legs| ensures legs[i].block <= legs[j].block {
      ProductRises(i, j, p.bucketBlocks);
    }
  }

  lemma ProductRises(i: nat, j: nat, n: int)
    requires i < j && n >= 1
    ensures i * n <= j * n
  {
  }

  /** n different buckets of value 1. */
  ghost predicate Ones(m: Bucketed, n: nat) {
    |m| == n && forall b :: b in m ==> 0 <= b < n && m[b] == 1.0
  }

  lemma OneMore(m: Bucketed, n: nat)
    requires Ones(m, n)
    ensures Ones(Bump(m, n, 1.0), n + 1)
  {
    assert n !in m;
  }

  lemma {:induction false} OnePerBucketTraded(p: Params, n: nat)
    requires p.Ok()
    ensures Ones(Traded(p, OnePerBucket(p, n), Nth(p, 0).Token(), None), n)
  {
    if n > 0 {
      var before, t := OnePerBucket(p, n - 1), Nth(p, 0).Token();
      OnePerBucketTraded(p, n - 1);
      NthToken(p, n - 1);
      NthBucket(p, n - 1);
      OneMore(Traded(p, before, t, None), n - 1);
      hide Traded, Ones, Bump, Leg.Bucket, Leg.Token;
      TradedMore(p, before, Nth(p, n - 1), t);
    }
  }

  lemma TradedMore(p: Params, legs: seq<Leg>, leg: Leg, t: string)
    requires p.Ok() && leg.Token() == t
    ensures Traded(p, legs + [leg], t, None) == Bump(Traded(p, legs, t, None), leg.Bucket(p), leg.sv)
  {
    hide Bump, Leg.Bucket, Leg.Token;
    assert (legs + [leg])[..|legs|] == legs;
  }

  lemma {:induction false} SumOfOnes(m: Bucketed, ks: seq<int>, lo: int)
    requires forall i :: 0 <= i < |ks| ==> ks[i] >= lo && At(m, ks[i]) == 1.0
    ensures SumAlong(m, ks, lo) == |ks| as real
  {
    if |ks| > 0 { SumOfOnes(m, ks[..|ks| - 1], lo); }
  }

  lemma SumCountsOnes(m: Bucketed, keep: nat, n: nat, lo: int)
    requires Ones(m, n) && lo <= 0
    ensures SumFrom(m, lo) == n as real
    ensures keep > 0 && n > keep ==> SumFrom(Newest(m, keep), lo) == keep as real
  {
    var p := Newest(m, keep);
    SortedIsAscending(m.Keys);
    SortedIsAscending(p.Keys);
    NewestSubset(m, keep);
    NewestIsSuffix(m, keep);
    DroppedSize(m, keep);
    hide Sorted, Newest;
    var ks, tail := Sorted(m.Keys), Sorted(p.Keys);
    forall i | 0 <= i < |ks| ensures ks[i] in m { assert ks[i] in ks; }
    forall i | 0 <= i < |tail| ensures tail[i] in p { assert tail[i] in tail; }
    SumOfOnes(m, ks, lo);
    SumOfOnes(p, tail, lo);
  }

  /** With lookback 1 only four buckets are kept: five legs in five buckets already
      miss one of the seven buckets the sums are meant to cover. */
  lemma RecentCanMissBuckets(p: Params)
    requires p.Ok() && p.pruned && p.lookback == 1
    ensures exists legs :: |legs| > 0 && Ordered(legs) && !SumsAgree(p, legs, None)
  {
    var n := 5;
    var legs := OnePerBucket(p, n);
    OnePerBucketIs(p, n);
    OnePerBucketOrdered(p, n);
    OnePerBucketTraded(p, n);
    NthBucket(p, 4);
    hide OnePerBucket, Traded, Ones, SumFrom, Newest, Nth, Leg.Bucket, Leg.Token;
    assert legs[4] == Nth(p, 4);
    SumCountsOnes(Traded(p, legs, Nth(p, 0).Token(), None), 4, 5, -2);
    NthToken(p, 4);
  }

  lemma NthToken(p: Params, i: nat)
    ensures Nth(p, i).Token() == Nth(p, 0).Token()
  {
  }

  /** The sums are exact on every block-ordered history if and only if lookback is not 1. */
  lemma RecentIsExactIff(p: Params)
    requires p.Ok() && p.pruned
    ensures p.lookback != 1 <==>
            forall legs: seq<Leg>, side :: |legs| > 0 && Ordered(legs) ==> SumsAgree(p, legs, side)
  {
    hide SumsAgree, OnePerBucket, Ordered;
    if p.lookback != 1 {
      forall legs: seq<Leg>, side | |legs| > 0 && Ordered(legs) ensures SumsAgree(p, legs, side) {
        RecentIsExact(p, legs, side);
      }
    } else {
      RecentCanMissBuckets(p);
    }
  }
}
