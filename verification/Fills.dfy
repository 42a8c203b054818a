/** Confirmed fills and tracked positions: `apply_fill` of arc-intel/execution/positions.py
    and `record_fill`, `get_position` of arc-intel/bot/store.py. */
module Fills {
  import opened Reals
  import opened Text
  import Pnl

  // ----- apply_fill

  datatype Pos = Pos(qty: real, cost: real, realized: real, lastBlock: int)

  const NO_POS := Pos(0.0, 0.0, 0.0, 0)

  datatype Applied = Updated(pos: Pos) | Rejected(error: string)

  function AvgCost(p: Pos): real {
    if p.qty > 0.0 then p.cost / p.qty else 0.0
  }

  function Apply(p: Pos, side: string, qty: real, value: real, block: int): Applied {
    if qty <= 0.0 then Rejected("token_qty_must_be_positive")
    else if side == "buy" then Updated(Pos(p.qty + qty, p.cost + value, p.realized, block))
    else if side == "sell" then
      if p.qty <= 0.0 then Rejected("no_position_to_sell")
      else
        var sold := Min(qty, p.qty);
        var realized := p.realized + (value * (sold / qty) - AvgCost(p) * sold);
        if p.qty - sold <= DUST then Updated(Pos(0.0, 0.0, realized, block))
        else Updated(Pos(p.qty - sold, p.cost - AvgCost(p) * sold, realized, block))
    else Rejected("invalid_side:" + side)
  }

  class Position {
    var qty: real
    var cost: real
    var realized: real
    var lastBlock: int

    function View(): Pos
      reads this
    {
      Pos(qty, cost, realized, lastBlock)
    }

    constructor (p: Pos)
      ensures View() == p
    {
      qty, cost, realized, lastBlock := p.qty, p.cost, p.realized, p.lastBlock;
    }

    /** `apply_fill`: the fields move together, and not at all on an error. */
    method ApplyFill(side: string, tokenQty: real, value: real, block: int) returns (r: Applied)
      modifies this
      ensures r == Apply(old(View()), side, tokenQty, value, block)
      ensures View() == if r.Updated? then r.pos else old(View())
    {
      if tokenQty <= 0.0 { return Rejected("token_qty_must_be_positive"); }
      if side == "buy" {
        qty := qty + tokenQty;
        cost := cost + value;
      } else if side == "sell" {
        if qty <= 0.0 { return Rejected("no_position_to_sell"); }
        var sold := Min(tokenQty, qty);
        var cogs := AvgCost(View()) * sold;
        realized := realized + (value * (sold / tokenQty) - cogs);
        qty := qty - sold;
        cost := cost - cogs;
        if qty <= DUST {
          qty, cost := 0.0, 0.0;
        }
      } else {
        return Rejected("invalid_side:" + side);
      }
      lastBlock := block;
      r := Updated(View());
    }
  }

  // ----- the store

  datatype FillRow = FillRow(id: string, user: string, token: string, side: string, qty: real, value: real, block: int, ts: int)
  {
    function Key(): (string, string) { (user, token) }
  }

  function Normalized(r: FillRow): FillRow {
    r.(user := Lower(r.user), token := Lower(r.token))
  }

  /** The `fills` table in insertion order and the `positions` table. */
  datatype Tables = Tables(fills: seq<FillRow>, positions: map<(string, string), Pos>)

  const NO_FILLS := Tables([], map[])

  datatype Outcome = New | Duplicate | Raised(error: string)

  function PosOf(positions: map<(string, string), Pos>, k: (string, string)): Pos {
    if k in positions then positions[k] else NO_POS
  }

  predicate HasId(fills: seq<FillRow>, id: string) {
    exists i :: 0 <= i < |fills| && fills[i].id == id
  }

  function ApplyRow(p: Pos, r: FillRow): Applied {
    Apply(p, r.side, r.qty, r.value, r.block)
  }

  /** `record_fill`: INSERT OR IGNORE, then the position; an exception from
      `apply_fill` leaves the inserted row behind. */
  function Recorded(t: Tables, row: FillRow): (Tables, Outcome) {
    var r := Normalized(row);
    if HasId(t.fills, r.id) then (t, Duplicate)
    else
      var after := ApplyRow(PosOf(t.positions, r.Key()), r);
      if after.Rejected? then (Tables(t.fills + [r], t.positions), Raised(after.error))
      else (Tables(t.fills + [r], t.positions[r.Key() := after.pos]), New)
  }

  class FillStore {
    var fills: seq<FillRow>
    var positions: map<(string, string), Pos>

    function View(): Tables
      reads this
    {
      Tables(fills, positions)
    }

    constructor ()
      ensures View() == NO_FILLS
    {
      fills, positions := [], map[];
    }

    method RecordFill(row: FillRow) returns (outcome: Outcome)
      modifies this
      ensures (View(), outcome) == Recorded(old(View()), row)
    {
      var r := Normalized(row);
      var known := IdExists(r.id);
      if known { return Duplicate; }
      fills := fills + [r];
      var pos := new Position(PosOf(positions, r.Key()));
      var applied := pos.ApplyFill(r.side, r.qty, r.value, r.block);
      if applied.Rejected? { return Raised(applied.error); }
      positions := positions[r.Key() := pos.View()];
      outcome := New;
    }

    /** Does the primary key already exist? */
    method IdExists(id: string) returns (found: bool)
      ensures found == HasId(fills, id)
    {
      for i := 0 to |fills|
        invariant !HasId(fills[..i], id)
      {
        if fills[i].id == id { return true; }
      }
      assert fills[..|fills|] == fills;
      found := false;
    }
  }

  /** What a call does, read off its row: an id counts once; a new row is kept with user
      and token in lower case, and moves the position of that user and token only. */
  lemma RecordIs(t: Tables, row: FillRow)
    ensures var (t', outcome) := Recorded(t, row);
            var k := (Lower(row.user), Lower(row.token));
            var known := exists i :: 0 <= i < |t.fills| && t.fills[i].id == row.id;
            var held := if k in t.positions then t.positions[k].qty else 0.0;
            && (outcome == Duplicate <==> known) && (known ==> t' == t)
            && (!known ==> t'.fills == t.fills + [FillRow(row.id, k.0, k.1, row.side, row.qty, row.value, row.block, row.ts)])
            && (outcome.Raised? <==> !known && (row.qty <= 0.0 || (row.side != "buy" && (row.side != "sell" || held <= 0.0))))
            && (outcome.Raised? ==> t'.positions == t.positions)
            && (outcome.New? ==> k in t'.positions && t'.positions == t.positions[k := t'.positions[k]]
                                 && t'.positions[k].lastBlock == row.block)
  {
    assert "buy" != "sell" by { assert "buy"[0] != "sell"[0]; }
    hide Lower, AvgCost;
  }

  // ----- the positions are the fold of the distinct fills

  /** A fill the position cannot take leaves it as it is. */
  function Step(p: Pos, r: FillRow): Pos {
    var after := ApplyRow(p, r);
    if after.Updated? then after.pos else p
  }

  function Replayed(fills: seq<FillRow>, k: (string, string)): Pos {
    if |fills| == 0 then NO_POS
    else
      var before, r := Replayed(fills[..|fills| - 1], k), fills[|fills| - 1];
      if r.Key() == k then Step(before, r) else before
  }

  ghost predicate Consistent(t: Tables) {
    && (forall i, j :: 0 <= i < j < |t.fills| ==> t.fills[i].id != t.fills[j].id)
    && (forall k :: PosOf(t.positions, k) == Replayed(t.fills, k))
  }

  lemma RecordedKeepsConsistent(t: Tables, row: FillRow)
    requires Consistent(t)
    ensures Consistent(Recorded(t, row).0)
  {
    var r, t' := Normalized(row), Recorded(t, row).0;
    hide Normalized, ApplyRow;
    if !HasId(t.fills, r.id) {
      assert t'.fills[..|t'.fills| - 1] == t.fills;
      forall k ensures PosOf(t'.positions, k) == Replayed(t'.fills, k) {
        assert PosOf(t.positions, k) == Replayed(t.fills, k);
      }
    }
  }

  /** A whole run of `record_fill` calls. */
  function Run(t: Tables, calls: seq<FillRow>): Tables {
    if |calls| == 0 then t else Recorded(Run(t, calls[..|calls| - 1]), calls[|calls| - 1]).0
  }

  /** The first call with each fill id. */
  function FirstById(calls: seq<FillRow>): seq<FillRow> {
    if |calls| == 0 then []
    else
      var before, r := FirstById(calls[..|calls| - 1]), Normalized(calls[|calls| - 1]);
      if HasId(before, r.id) then before else before + [r]
  }

  /** Whatever is called, in whatever order and however often, the tables hold the
      first call of every id, and every position is the average-cost fold over them. */
  lemma {:induction false} RunIsFold(calls: seq<FillRow>)
    ensures Run(NO_FILLS, calls).fills == FirstById(calls)
    ensures Consistent(Run(NO_FILLS, calls))
  {
    if |calls| > 0 {
      var before := calls[..|calls| - 1];
      RunIsFold(before);
      RecordedKeepsConsistent(Run(NO_FILLS, before), calls[|calls| - 1]);
      hide Consistent, HasId, Normalized, ApplyRow;
    }
  }

  lemma {:induction false} RunKeepsIds(t: Tables, calls: seq<FillRow>, id: string)
    requires HasId(t.fills, id) || exists i :: 0 <= i < |calls| && calls[i].id == id
    ensures HasId(Run(t, calls).fills, id)
  {
    if |calls| > 0 {
      var before, last := calls[..|calls| - 1], calls[|calls| - 1];
      var t1 := Run(t, before);
      if HasId(t.fills, id) || exists i :: 0 <= i < |before| && before[i].id == id {
        RunKeepsIds(t, before, id);
        var i :| 0 <= i < |t1.fills| && t1.fills[i].id == id;
        assert Recorded(t1, last).0.fills[i].id == id;
      } else {
        assert last.id == id;
        hide ApplyRow;
        var t2 := Recorded(t1, last).0;
        if !HasId(t1.fills, id) { assert t2.fills[|t1.fills|].id == id; }
      }
    }
  }

  /** Calls whose ids were all recorded before change nothing, however interleaved. */
  lemma {:induction false} ReplayChangesNothing(t: Tables, calls: seq<FillRow>, again: seq<FillRow>)
    requires forall j :: 0 <= j < |again| ==> exists i :: 0 <= i < |calls| && calls[i].id == again[j].id
    ensures Run(Run(t, calls), again) == Run(t, calls)
  {
    if |again| > 0 {
      var before, last := again[..|again| - 1], again[|again| - 1];
      forall j | 0 <= j < |before| ensures exists i :: 0 <= i < |calls| && calls[i].id == before[j].id {
        assert before[j] == again[j];
      }
      ReplayChangesNothing(t, calls, before);
      RunKeepsIds(t, calls, last.id);
    }
  }

  // ----- the same accounting as closed_trades and stream_pnl_pg

  function LegOf(r: FillRow): Pnl.Leg {
    Pnl.Leg(r.user, r.token, "", r.block, 0, if r.side == "buy" then Pnl.Buy else Pnl.Sell, r.qty, r.value)
  }

  predicate Tradable(r: FillRow) {
    (r.side == "buy" || r.side == "sell") && r.qty > 0.0 && r.value > 0.0
  }

  function LegsFor(fills: seq<FillRow>, k: (string, string)): (legs: seq<Pnl.Leg>)
    requires forall i :: 0 <= i < |fills| ==> Tradable(fills[i])
    ensures Pnl.AllValued(legs)
  {
    if |fills| == 0 then []
    else
      var r := fills[|fills| - 1];
      assert Tradable(r);
      LegsFor(fills[..|fills| - 1], k) + (if r.Key() == k then [LegOf(r)] else [])
  }

  predicate SameBooks(p: Pos, a: Pnl.Acct) {
    p.qty == a.qty && p.cost == a.cost && p.realized == a.realized
  }

  lemma StepIsFill(p: Pos, a: Pnl.Acct, r: FillRow)
    requires Tradable(r) && SameBooks(p, a)
    ensures SameBooks(Step(p, r), Pnl.Fill(a, LegOf(r)))
  {
    if r.side == "sell" && p.qty > 0.0 {
      var sold := Min(r.qty, p.qty);
      assert AvgCost(p) * sold == Pnl.CostOf(a, sold);
      assert r.value * (sold / r.qty) == Pnl.Proceeds(LegOf(r), sold);
      hide AvgCost, Pnl.CostOf, Pnl.Proceeds;
    }
  }

  /** The replayed position is the average-cost account of the same legs: `apply_fill`,
      `closed_trades` and the per-pool loop keep one set of books. */
  lemma {:induction false} ReplayIsBook(fills: seq<FillRow>, k: (string, string))
    requires forall i :: 0 <= i < |fills| ==> Tradable(fills[i])
    ensures SameBooks(Replayed(fills, k), Pnl.Book(LegsFor(fills, k)))
  {
    if |fills| > 0 {
      var before, r := fills[..|fills| - 1], fills[|fills| - 1];
      ReplayIsBook(before, k);
      if r.Key() == k {
        var legs := LegsFor(before, k);
        assert LegsFor(fills, k)[..|legs|] == legs;
        StepIsFill(Replayed(before, k), Pnl.Book(legs), r);
        hide Step, Pnl.Fill;
      } else {
        assert LegsFor(fills, k) == LegsFor(before, k);
      }
    }
  }
}
