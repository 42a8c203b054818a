/** The polling loop of arc-intel/indexer/service.py with the event dispatch of
    arc-intel/indexer/processor.py: errors, mid-range failures and restarts. */
module Service {
  import opened Options
  import opened Text

  // ----- events and the rows they become

  datatype Kind = DexSwap | Launchpad | PoolInit | TokenTransfer | V4Donate

  datatype Topic0 = SwapV2 | SwapV3 | SwapV4 | Transfer | OtherTopic

  /** `topics` and `words` count what the decoders count. */
  datatype Event = Event(kind: Kind, block: int, txHash: string, logIndex: int, topic0: Topic0,
                         topics: nat, words: nat, poolId: string)

  datatype Table = Swaps | Pools | Launches | Transfers | Donates

  datatype Row = EventRow(table: Table, txHash: string, logIndex: int) | PoolRow(poolId: string)

  /** The key of the row `process` inserts for an event, if it inserts one. A swap
      whose data is too short to decode is stored all the same, with empty amounts. */
  function RowOf(e: Event): Option<Row> {
    match e.kind
    case DexSwap => if e.topic0 in {SwapV2, SwapV3, SwapV4} then Some(EventRow(Swaps, Lower(e.txHash), e.logIndex)) else None
    case Launchpad => Some(EventRow(Launches, Lower(e.txHash), e.logIndex))
    case PoolInit => if e.topics >= 4 && e.words >= 5 then Some(PoolRow(Lower(e.poolId))) else None
    case TokenTransfer =>
      if e.topic0 == Transfer && e.topics >= 3 then Some(EventRow(Transfers, Lower(e.txHash), e.logIndex)) else None
    case V4Donate => if e.topics >= 3 && e.words >= 2 then Some(EventRow(Donates, Lower(e.txHash), e.logIndex)) else None
  }

  type Rows = map<Row, Event>

  /** INSERT OR IGNORE. */
  function Process(rows: Rows, e: Event): Rows {
    var r := RowOf(e);
    if r.Some? && r.value !in rows then rows[r.value := e] else rows
  }

  function ProcessAll(rows: Rows, events: seq<Event>): Rows {
    if |events| == 0 then rows else Process(ProcessAll(rows, events[..|events| - 1]), events[|events| - 1])
  }

  lemma {:induction false} ProcessAllContents(rows: Rows, events: seq<Event>)
    ensures forall r :: r in rows ==> r in ProcessAll(rows, events) && ProcessAll(rows, events)[r] == rows[r]
    ensures forall e :: e in events && RowOf(e).Some? ==> RowOf(e).value in ProcessAll(rows, events)
  {
    if |events| > 0 {
      assert events == events[..|events| - 1] + [events[|events| - 1]];
      hide RowOf;
      ProcessAllContents(rows, events[..|events| - 1]);
    }
  }

  // ----- one pass of the loop

  /** How the outside world answers one pass. `failAt` is the index of the event
      whose processing raises, `partial` whether its row was already inserted. */
  datatype World = World(head: Option<int>, pollRaises: bool, failAt: nat, partial: bool, healthRaises: bool)

  datatype Config = Config(chain: int -> seq<Event>, poll: (int, int) -> seq<Event>, maxRange: int,
                           stopWhenSynced: bool, maxTicks: Option<nat>, maxErrors: int)

  /** A poll returns the events of its blocks, in any order. */
  ghost predicate PollIsExact(c: Config) {
    && (forall a, b, e {:trigger e in c.poll(a, b)} :: e in c.poll(a, b) ==> exists k :: a <= k <= b && e in c.chain(k))
    && (forall a, b, k, e {:trigger e in c.poll(a, b), e in c.chain(k)} ::
          a <= k <= b && e in c.chain(k) ==> e in c.poll(a, b))
  }

  /** `rows` and `saved` are persisted, the rest lives in the process. */
  datatype State = State(rows: Rows, saved: int, cursor: int, ticks: nat, errors: nat, running: bool)

  function Failed(c: Config, s: State): State {
    s.(errors := s.errors + 1, running := s.errors + 1 < c.maxErrors)
  }

  function Target(c: Config, s: State, head: int): int {
    if head != 0 && head < s.cursor + c.maxRange then head else s.cursor + c.maxRange
  }

  /** The rows left behind by the events of a pass. */
  function RowsAfter(rows: Rows, events: seq<Event>, w: World): Rows {
    if w.failAt >= |events| then ProcessAll(rows, events)
    else if w.partial then ProcessAll(rows, events[..w.failAt + 1])
    else ProcessAll(rows, events[..w.failAt])
  }

  function Pass(c: Config, s: State, w: World): State {
    if w.head.None? then Failed(c, s)
    else if w.head.value != 0 && w.head.value <= s.cursor then
      if w.healthRaises then Failed(c, s) else s.(running := !c.stopWhenSynced)
    else if w.pollRaises then Failed(c, s)
    else
      var to := Target(c, s, w.head.value);
      var events := c.poll(s.cursor + 1, to);
      var rows := RowsAfter(s.rows, events, w);
      if w.failAt < |events| then Failed(c, s.(rows := rows))
      else if w.healthRaises then Failed(c, s.(rows := rows, saved := to))
      else
        s.(rows := rows, saved := to, cursor := to, ticks := s.ticks + 1, errors := 0,
           running := !(c.maxTicks.Some? && s.ticks + 1 >= c.maxTicks.value)
                      && !(w.head.value != 0 && w.head.value <= to && c.stopWhenSynced))
  }

  function Passes(c: Config, s: State, script: seq<World>): State {
    if |script| == 0 then s
    else
      var before := Passes(c, s, script[..|script| - 1]);
      if before.running then Pass(c, before, script[|script| - 1]) else before
  }

  /** Start-up: resume at the persisted cursor, never before the start block. */
  function Begin(rows: Rows, saved: Option<int>, start: int): State {
    var cursor := if saved.Some? && saved.value >= start - 1 then saved.value else start - 1;
    State(rows, cursor, cursor, 0, 0, true)
  }

  // ----- the loop itself

  class IndexerService {
    const c: Config
    var rows: Rows
    var saved: Option<int>

    constructor (c: Config)
      ensures this.c == c && rows == map[] && saved == None
    {
      this.c := c;
      rows := map[];
      saved := None;
    }

    /** `run`: one pass per element of the script; the script ends when the process is killed. */
    method Run(start: int, script: seq<World>) returns (cursor: int, ticks: nat)
      modifies this
      ensures var s := Passes(c, Begin(old(rows), old(saved), start), script);
              rows == s.rows && saved == Some(s.saved) && cursor == s.cursor && ticks == s.ticks
    {
      hide Pass;
      cursor := if saved.Some? then saved.value else start - 1;
      if cursor < start - 1 {
        cursor := start - 1;
      }
      saved := Some(cursor);
      ticks := 0;
      var errors, running := 0, true;
      var i := 0;
      while running && i < |script|
        invariant 0 <= i <= |script| && saved.Some?
        invariant State(rows, saved.value, cursor, ticks, errors, running) ==
                  Passes(c, Begin(old(rows), old(saved), start), script[..i])
      {
        assert script[..i + 1][..i] == script[..i];
        cursor, ticks, errors, running := OnePass(script[i], cursor, ticks, errors);
        i := i + 1;
      }
      StoppedStays(c, Begin(old(rows), old(saved), start), script, i);
    }

    /** The body of the loop, with its `except` branch. */
    method OnePass(w: World, cursor: int, ticks: nat, errors: nat)
      returns (cursor': int, ticks': nat, errors': nat, running: bool)
      requires saved.Some?
      modifies this
      ensures saved.Some?
      ensures State(rows, saved.value, cursor', ticks', errors', running) ==
              Pass(c, State(old(rows), old(saved).value, cursor, ticks, errors, true), w)
    {
      cursor', ticks', errors', running := cursor, ticks, errors, true;
      var raised := true;
      if w.head.Some? {
        var head := w.head.value;
        if head != 0 && head <= cursor {
          raised := w.healthRaises;
          if !raised { running := !c.stopWhenSynced; }
        } else if !w.pollRaises {
          var to := if head != 0 && head < cursor + c.maxRange then head else cursor + c.maxRange;
          var events := c.poll(cursor + 1, to);
          raised := ProcessPolled(events, w);
          if !raised {
            saved := Some(to);
            raised := w.healthRaises;
            if !raised {
              cursor', ticks', errors' := to, ticks + 1, 0;
              if c.maxTicks.Some? && ticks' >= c.maxTicks.value {
                running := false;
              } else if head != 0 && head <= cursor' {
                running := !c.stopWhenSynced;
              }
            }
          }
        }
      }
      if raised {
        errors' := errors' + 1;
        running := errors' < c.maxErrors;
      }
    }

    /** The event loop: it raises at event `failAt`, possibly after inserting its row. */
    method ProcessPolled(events: seq<Event>, w: World) returns (raised: bool)
      modifies this`rows
      ensures raised <==> w.failAt < |events|
      ensures rows == RowsAfter(old(rows), events, w)
    {
      var i := 0;
      while i < |events| && i != w.failAt
        invariant 0 <= i <= |events| && i <= w.failAt
        invariant rows == ProcessAll(old(rows), events[..i])
      {
        assert events[..i + 1][..i] == events[..i];
        rows := Process(rows, events[i]);
        i := i + 1;
      }
      raised := i < |events|;
      assert raised ==> events[..i + 1][..i] == events[..i];
      assert events[..|events|] == events;
      if raised && w.partial {
        rows := Process(rows, events[i]);
      }
    }
  }

  lemma {:induction false} StoppedStays(c: Config, s: State, script: seq<World>, i: nat)
    requires i <= |script|
    requires i < |script| ==> !Passes(c, s, script[..i]).running
    ensures Passes(c, s, script) == Passes(c, s, script[..i])
  {
    if i < |script| {
      var n := |script| - 1;
      assert script[..n][..i] == script[..i];
      StoppedStays(c, s, script[..n], i);
    } else {
      assert script[..i] == script;
    }
  }

  // ----- safety

  /** Every accepted event of blocks lo..hi is stored under its key. */
  ghost predicate StoredThrough(c: Config, rows: Rows, lo: int, hi: int) {
    forall k, e {:trigger e in c.chain(k)} :: lo <= k <= hi && e in c.chain(k) && RowOf(e).Some? ==> RowOf(e).value in rows
  }

  ghost predicate Sound(c: Config, start: int, s: State) {
    && start - 1 <= s.cursor <= s.saved <= s.cursor + c.maxRange
    && StoredThrough(c, s.rows, start, s.saved)
  }

  lemma RowsOnlyGrow(rows: Rows, events: seq<Event>, w: World)
    ensures forall r :: r in rows ==> r in RowsAfter(rows, events, w) && RowsAfter(rows, events, w)[r] == rows[r]
  {
    hide ProcessAll;
    ProcessAllContents(rows, events);
    if w.failAt < |events| {
      ProcessAllContents(rows, events[..w.failAt]);
      ProcessAllContents(rows, events[..w.failAt + 1]);
    }
  }

  /** Completing a poll stores its range on top of what was stored. */
  lemma PollStores(c: Config, rows: Rows, start: int, cursor: int, saved: int, to: int)
    requires PollIsExact(c) && StoredThrough(c, rows, start, saved) && cursor <= saved
    ensures StoredThrough(c, ProcessAll(rows, c.poll(cursor + 1, to)), start, to)
    ensures StoredThrough(c, ProcessAll(rows, c.poll(cursor + 1, to)), start, saved)
  {
    hide ProcessAll, RowOf;
    ProcessAllContents(rows, c.poll(cursor + 1, to));
  }

  /** Every pass keeps the invariant, whatever fails in it. */
  lemma PassIsSound(c: Config, start: int, s: State, w: World)
    requires PollIsExact(c) && c.maxRange >= 1 && Sound(c, start, s)
    ensures Sound(c, start, Pass(c, s, w))
    ensures forall r :: r in s.rows ==> r in Pass(c, s, w).rows && Pass(c, s, w).rows[r] == s.rows[r]
  {
    hide ProcessAll, RowOf, PollIsExact;
    if w.head.Some? {
      var to := Target(c, s, w.head.value);
      var events := c.poll(s.cursor + 1, to);
      RowsOnlyGrow(s.rows, events, w);
      PollStores(c, s.rows, start, s.cursor, s.saved, to);
    }
  }

  /** The pass reaches the statement that persists the cursor. */
  predicate Persists(c: Config, s: State, w: World) {
    && w.head.Some? && !(w.head.value != 0 && w.head.value <= s.cursor) && !w.pollRaises
    && w.failAt >= |c.poll(s.cursor + 1, Target(c, s, w.head.value))|
  }

  /** The persisted cursor moves back in a pass exactly when the pass persists it
      while the node reports a head below it. */
  lemma CursorMovesBackIff(c: Config, start: int, s: State, w: World)
    requires c.maxRange >= 1 && Sound(c, start, s)
    ensures Pass(c, s, w).saved < s.saved <==> Persists(c, s, w) && w.head.value != 0 && w.head.value < s.saved
  {
    hide StoredThrough, RowsAfter;
  }

  /** It can: a failure after the cursor was persisted, then a lower head. */
  lemma CursorCanMoveBack()
    ensures var c := Config(k => [], (a, b) => [], 200, false, None, 20);
            var s := Begin(map[], None, 1);
            var s1 := Pass(c, s, World(Some(100), false, 0, false, true));
            var s2 := Pass(c, s1, World(Some(50), false, 0, false, false));
            s1.saved == 100 && s2.saved == 50
  {
  }

  /** Reported heads do not go down; 0 stands for a source without heads. */
  predicate HeadAtLeast(w: World, w': World) {
    w.head.Some? && w'.head.Some? ==> w'.head.value == 0 || (w.head.value != 0 && w.head.value <= w'.head.value)
  }

  predicate HeadsRise(script: seq<World>) {
    forall i, j :: 0 <= i < j < |script| ==> HeadAtLeast(script[i], script[j])
  }

  /** Some pass so far saw a head that justifies the persisted cursor. */
  ghost predicate Justified(s: State, script: seq<World>) {
    s.saved == s.cursor ||
    exists i :: 0 <= i < |script| && script[i].head.Some? && (script[i].head.value == 0 || s.saved <= script[i].head.value)
  }

  /** One process lifetime: sound after every pass, and no stored row is lost or changed. */
  lemma {:induction false} RunIsSound(c: Config, start: int, s: State, script: seq<World>)
    requires PollIsExact(c) && c.maxRange >= 1 && Sound(c, start, s)
    ensures Sound(c, start, Passes(c, s, script))
    ensures forall r :: r in s.rows ==> r in Passes(c, s, script).rows && Passes(c, s, script).rows[r] == s.rows[r]
  {
    if |script| > 0 {
      hide Pass, Sound, PollIsExact;
      RunIsSound(c, start, s, script[..|script| - 1]);
      PassIsSound(c, start, Passes(c, s, script[..|script| - 1]), script[|script| - 1]);
    }
  }

  /** With rising heads the persisted cursor never moves back. */
  lemma {:induction false} RisingHeadsNeverMoveBack(c: Config, start: int, s: State, script: seq<World>)
    requires PollIsExact(c) && c.maxRange >= 1 && Sound(c, start, s) && s.saved == s.cursor && HeadsRise(script)
    ensures Justified(Passes(c, s, script), script)
    ensures |script| > 0 ==> Passes(c, s, script[..|script| - 1]).saved <= Passes(c, s, script).saved
    ensures s.saved <= Passes(c, s, script).saved
  {
    hide PollIsExact, Sound, Pass;
    if |script| > 0 {
      var n := |script| - 1;
      var before := Passes(c, s, script[..n]);
      var w := script[n];
      RunIsSound(c, start, s, script[..n]);
      RisingHeadsNeverMoveBack(c, start, s, script[..n]);
      JustifiedStep(c, start, before, script, n);
    }
  }

  lemma JustifiedStep(c: Config, start: int, before: State, script: seq<World>, n: nat)
    requires c.maxRange >= 1 && Sound(c, start, before) && HeadsRise(script) && n + 1 == |script|
    requires Justified(before, script[..n])
    ensures Justified(before, script) && Justified(Pass(c, before, script[n]), script)
    ensures before.saved <= Pass(c, before, script[n]).saved
  {
    hide StoredThrough, RowsAfter;
    var w := script[n];
    if before.saved != before.cursor {
      var i :| 0 <= i < n && script[..n][i].head.Some? && (script[..n][i].head.value == 0 || before.saved <= script[..n][i].head.value);
      assert script[i] == script[..n][i] && HeadAtLeast(script[i], w);
    }
    CursorMovesBackIff(c, start, before, w);
    if Persists(c, before, w) {
      assert script[n].head.value == 0 || Pass(c, before, w).saved <= script[n].head.value;
    }
  }

  // ----- restarts

  /** The state after each script ran in a fresh process on what the previous one persisted. */
  function Restarts(c: Config, start: int, rows: Rows, saved: Option<int>, scripts: seq<seq<World>>): State {
    if |scripts| == 0 then Begin(rows, saved, start)
    else
      var before := Restarts(c, start, rows, saved, scripts[..|scripts| - 1]);
      Passes(c, Begin(before.rows, Some(before.saved), start), scripts[|scripts| - 1])
  }

  /** Over any number of crashes and restarts, every accepted event from the
      start block to the persisted cursor is stored, and no lifetime loses a row. */
  lemma {:induction false} RestartsAreSound(c: Config, start: int, scripts: seq<seq<World>>)
    requires PollIsExact(c) && c.maxRange >= 1
    ensures Sound(c, start, Restarts(c, start, map[], None, scripts))
    ensures (forall i :: 0 <= i < |scripts| ==> HeadsRise(scripts[i])) && |scripts| > 0 ==>
              Restarts(c, start, map[], None, scripts[..|scripts| - 1]).saved <= Restarts(c, start, map[], None, scripts).saved
    ensures |scripts| > 0 ==>
              var before, after := Restarts(c, start, map[], None, scripts[..|scripts| - 1]), Restarts(c, start, map[], None, scripts);
              forall r :: r in before.rows ==> r in after.rows && after.rows[r] == before.rows[r]
  {
    if |scripts| > 0 {
      hide PollIsExact, Passes, HeadsRise;
      var n := |scripts| - 1;
      var before := Restarts(c, start, map[], None, scripts[..n]);
      RestartsAreSound(c, start, scripts[..n]);
      var s := Begin(before.rows, Some(before.saved), start);
      assert Sound(c, start, s) && s.saved == s.cursor == before.saved;
      RunIsSound(c, start, s, scripts[n]);
      if HeadsRise(scripts[n]) { RisingHeadsNeverMoveBack(c, start, s, scripts[n]); }
    }
  }

  // ----- no event is lost, none is stored twice

  /** What `process` stores: swaps of a known kind, launchpad events, transfers, and
      pool and donate events whose topics and data are long enough. */
  predicate Accepted(e: Event) {
    match e.kind
    case DexSwap => e.topic0 == SwapV2 || e.topic0 == SwapV3 || e.topic0 == SwapV4
    case Launchpad => true
    case PoolInit => !(e.topics < 4 || e.words < 5)
    case TokenTransfer => e.topic0 == Transfer && !(e.topics < 3)
    case V4Donate => !(e.topics < 3 || e.words < 2)
  }

  /** Pools are named by their id, everything else by transaction and log index. */
  predicate SameEvent(e: Event, f: Event) {
    e.kind == f.kind && if e.kind == PoolInit then Lower(e.poolId) == Lower(f.poolId)
                        else Lower(e.txHash) == Lower(f.txHash) && e.logIndex == f.logIndex
  }

  /** Exactly the accepted events have a row, and two of them share it exactly when
      they name the same event. */
  lemma RowIff(e: Event, f: Event)
    ensures (RowOf(e).Some? <==> Accepted(e)) && (RowOf(f).Some? <==> Accepted(f))
    ensures Accepted(e) && Accepted(f) ==> (RowOf(e) == RowOf(f) <==> SameEvent(e, f))
  {
    hide Lower;
  }

  /** Every row holds an event of the chain that it is the row of. */
  ghost predicate Genuine(c: Config, rows: Rows) {
    forall r :: r in rows ==> RowOf(rows[r]) == Some(r) && exists k :: rows[r] in c.chain(k)
  }

  ghost predicate FromChain(c: Config, events: seq<Event>) {
    forall e :: e in events ==> exists k :: e in c.chain(k)
  }

  lemma {:induction false} ProcessGenuine(c: Config, rows: Rows, events: seq<Event>)
    requires Genuine(c, rows) && FromChain(c, events)
    ensures Genuine(c, ProcessAll(rows, events))
  {
    if |events| > 0 {
      hide RowOf;
      var before, e := events[..|events| - 1], events[|events| - 1];
      assert events == before + [e] && e in events;
      FromChainPrefix(c, events, |events| - 1);
      ProcessGenuine(c, rows, before);
    }
  }

  lemma PollFromChain(c: Config, a: int, b: int)
    requires PollIsExact(c)
    ensures FromChain(c, c.poll(a, b))
  {
  }

  lemma FromChainPrefix(c: Config, events: seq<Event>, n: nat)
    requires FromChain(c, events) && n <= |events|
    ensures FromChain(c, events[..n])
  {
    forall e | e in events[..n] ensures exists k :: e in c.chain(k) { assert e in events; }
  }

  lemma PassGenuine(c: Config, s: State, w: World)
    requires PollIsExact(c) && Genuine(c, s.rows)
    ensures Genuine(c, Pass(c, s, w).rows)
  {
    if w.head.Some? {
      var events := c.poll(s.cursor + 1, Target(c, s, w.head.value));
      PollFromChain(c, s.cursor + 1, Target(c, s, w.head.value));
      hide Genuine, FromChain, PollIsExact, ProcessAll, RowOf;
      ProcessGenuine(c, s.rows, events);
      if w.failAt < |events| {
        FromChainPrefix(c, events, w.failAt);
        FromChainPrefix(c, events, w.failAt + 1);
        ProcessGenuine(c, s.rows, events[..w.failAt]);
        ProcessGenuine(c, s.rows, events[..w.failAt + 1]);
      }
    }
  }

  lemma {:induction false} PassesGenuine(c: Config, s: State, script: seq<World>)
    requires PollIsExact(c) && Genuine(c, s.rows)
    ensures Genuine(c, Passes(c, s, script).rows)
  {
    if |script| > 0 {
      hide PollIsExact, Genuine, Pass;
      PassesGenuine(c, s, script[..|script| - 1]);
      PassGenuine(c, Passes(c, s, script[..|script| - 1]), script[|script| - 1]);
    }
  }

  lemma {:induction false} RestartsGenuine(c: Config, start: int, scripts: seq<seq<World>>)
    requires PollIsExact(c)
    ensures Genuine(c, Restarts(c, start, map[], None, scripts).rows)
  {
    if |scripts| > 0 {
      hide PollIsExact, Genuine, Passes;
      var before := Restarts(c, start, map[], None, scripts[..|scripts| - 1]);
      RestartsGenuine(c, start, scripts[..|scripts| - 1]);
      PassesGenuine(c, Begin(before.rows, Some(before.saved), start), scripts[|scripts| - 1]);
    }
  }

  /** Events that name the same event are the same. */
  ghost predicate Distinct(c: Config) {
    forall j, k, e, f {:trigger e in c.chain(j), f in c.chain(k)} ::
      e in c.chain(j) && f in c.chain(k) && SameEvent(e, f) ==> e == f
  }

  ghost predicate Stored(rows: Rows, e: Event) {
    exists r :: r in rows && rows[r] == e
  }

  /** Over any crashes and restarts, every accepted event from the start block to the
      persisted cursor is itself stored, in a row of its own. */
  lemma EveryEventIsStored(c: Config, start: int, scripts: seq<seq<World>>, k: int, e: Event)
    requires PollIsExact(c) && c.maxRange >= 1 && Distinct(c)
    requires start <= k <= Restarts(c, start, map[], None, scripts).saved && e in c.chain(k) && Accepted(e)
    ensures Stored(Restarts(c, start, map[], None, scripts).rows, e)
  {
    RestartsAreSound(c, start, scripts);
    RestartsGenuine(c, start, scripts);
    hide PollIsExact, Restarts, RowOf, SameEvent, Accepted;
    var rows := Restarts(c, start, map[], None, scripts).rows;
    RowIff(e, e);
    var r := RowOf(e).value;
    assert r in rows;
    RowIff(rows[r], e);
    var j :| rows[r] in c.chain(j);
  }
}
