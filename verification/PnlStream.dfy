/** `stream_pnl_pg` and `_mark_open` of arc-intel/indexer/pnl.py: one pass over swaps
    ordered by pool, keeping only the positions of the current pool. */
module PnlStream {
  import opened Options
  import opened Reals
  import opened Text
  import opened Pnl

  // ----- the legs of one pool, of one wallet

  function OfPool(legs: seq<Leg>, p: string): (r: seq<Leg>)
    ensures AllValued(legs) ==> AllValued(r)
    ensures forall i :: 0 <= i < |r| ==> r[i].pool == p && r[i] in legs
  {
    if |legs| == 0 then []
    else OfPool(legs[..|legs| - 1], p) + (if legs[|legs| - 1].pool == p then [legs[|legs| - 1]] else [])
  }

  function OfWallet(legs: seq<Leg>, w: string): (r: seq<Leg>)
    ensures AllValued(legs) ==> AllValued(r)
    ensures forall i :: 0 <= i < |r| ==> r[i].wallet == w && r[i] in legs
  {
    if |legs| == 0 then []
    else OfWallet(legs[..|legs| - 1], w) + (if legs[|legs| - 1].wallet == w then [legs[|legs| - 1]] else [])
  }

  lemma OneMoreOfPool(legs: seq<Leg>, leg: Leg, p: string)
    ensures OfPool(legs + [leg], p) == OfPool(legs, p) + (if leg.pool == p then [leg] else [])
  {
    assert (legs + [leg])[..|legs|] == legs;
  }

  lemma OneMoreOfWallet(legs: seq<Leg>, leg: Leg, w: string)
    ensures OfWallet(legs + [leg], w) == OfWallet(legs, w) + (if leg.wallet == w then [leg] else [])
  {
    assert (legs + [leg])[..|legs|] == legs;
  }

  function Traded(legs: seq<Leg>, p: string, w: string): (r: seq<Leg>)
    ensures AllValued(legs) ==> AllValued(r)
  {
    OfWallet(OfPool(legs, p), w)
  }

  /** The account of a wallet in a pool. */
  function Held(legs: seq<Leg>, p: string, w: string): Acct
    requires AllValued(legs)
  {
    Book(Traded(legs, p, w))
  }

  function PoolsIn(legs: seq<Leg>): set<string> {
    set i | 0 <= i < |legs| :: legs[i].pool
  }

  /** Price of the last leg of the pool. */
  function PriceOf(legs: seq<Leg>, p: string): Option<real>
    requires AllValued(legs)
  {
    var l := OfPool(legs, p);
    if |l| == 0 then None else Some(l[|l| - 1].Price())
  }

  /** Unrealised profit of the wallet in the pool at the pool's last price. */
  function Marked(legs: seq<Leg>, p: string, w: string): real
    requires AllValued(legs)
  {
    var price := PriceOf(legs, p);
    if price == None || price.value <= 0.0 then 0.0 else Unrealized(Held(legs, p, w), price.value)
  }

  function RealizedByPool(legs: seq<Leg>, w: string): map<string, real>
    requires AllValued(legs)
  {
    map p | p in PoolsIn(legs) :: Held(legs, p, w).realized
  }

  function MarkedByPool(legs: seq<Leg>, w: string): map<string, real>
    requires AllValued(legs)
  {
    map p | p in PoolsIn(legs) :: Marked(legs, p, w)
  }

  // ----- one more leg

  lemma NoLegsOutside(legs: seq<Leg>, p: string)
    ensures p !in PoolsIn(legs) <==> OfPool(legs, p) == []
  {
    if p in PoolsIn(legs) {
      var i :| 0 <= i < |legs| && legs[i].pool == p;
      PresentInPool(legs, i);
    }
  }

  lemma {:induction false} PresentInPool(legs: seq<Leg>, i: nat)
    requires i < |legs|
    ensures |OfPool(legs, legs[i].pool)| > 0
  {
    if i < |legs| - 1 { PresentInPool(legs[..|legs| - 1], i); }
  }

  lemma ElsewhereUnchanged(legs: seq<Leg>, leg: Leg, p: string, w: string)
    requires AllValued(legs) && leg.Valued() && p != leg.pool
    ensures AllValued(legs + [leg])
    ensures Held(legs + [leg], p, w) == Held(legs, p, w) && Marked(legs + [leg], p, w) == Marked(legs, p, w)
  {
    hide OfPool, OfWallet, Book, Unrealized;
    OneMoreOfPool(legs, leg, p);
    assert OfPool(legs + [leg], p) == OfPool(legs, p);
  }

  lemma HeldStep(legs: seq<Leg>, leg: Leg, w: string)
    requires AllValued(legs) && leg.Valued()
    ensures AllValued(legs + [leg])
    ensures Held(legs + [leg], leg.pool, w)
         == if w == leg.wallet then Fill(Held(legs, leg.pool, w), leg) else Held(legs, leg.pool, w)
    ensures PriceOf(legs + [leg], leg.pool) == Some(leg.Price())
  {
    hide OfPool, OfWallet, Fill, Leg.Price, Book;
    OneMoreOfPool(legs, leg, leg.pool);
    var before := OfPool(legs, leg.pool);
    OneMoreOfWallet(before, leg, w);
    if w == leg.wallet {
      BookStep(OfWallet(before, w), leg);
    } else {
      assert OfWallet(before + [leg], w) == OfWallet(before, w);
    }
  }

  lemma PoolsStep(legs: seq<Leg>, leg: Leg)
    ensures PoolsIn(legs + [leg]) == PoolsIn(legs) + {leg.pool}
  {
    var more := legs + [leg];
    assert more[|legs|] == leg;
    forall i | 0 <= i < |legs| ensures legs[i].pool in PoolsIn(more) { assert more[i] == legs[i]; }
  }

  /** A leg adds its own gain to the wallet's realised sum. */
  lemma RealizedSumStep(legs: seq<Leg>, leg: Leg, w: string)
    requires AllValued(legs) && leg.Valued()
    ensures AllValued(legs + [leg])
    ensures Sum(PoolsIn(legs + [leg]), RealizedByPool(legs + [leg], w))
         == Sum(PoolsIn(legs), RealizedByPool(legs, w))
            + Held(legs + [leg], leg.pool, w).realized - Held(legs, leg.pool, w).realized
  {
    var p, more := leg.pool, legs + [leg];
    var before, after := RealizedByPool(legs, w), RealizedByPool(more, w);
    PoolsStep(legs, leg);
    forall q | q in PoolsIn(legs) - {p} ensures Term(before, q) == Term(after, q) {
      ElsewhereUnchanged(legs, leg, q, w);
    }
    NoLegsOutside(legs, p);
    hide PoolsIn, OfPool, OfWallet, Fill;
    SumChange(PoolsIn(legs), before, after, p);
  }

  /** The marks of the other pools stay. */
  lemma MarkedSumStep(legs: seq<Leg>, leg: Leg, w: string)
    requires AllValued(legs) && leg.Valued()
    ensures AllValued(legs + [leg])
    ensures Sum(PoolsIn(legs + [leg]) - {leg.pool}, MarkedByPool(legs + [leg], w))
         == Sum(PoolsIn(legs) - {leg.pool}, MarkedByPool(legs, w))
  {
    var p, more := leg.pool, legs + [leg];
    PoolsStep(legs, leg);
    forall q | q in PoolsIn(legs) - {p} ensures Term(MarkedByPool(legs, w), q) == Term(MarkedByPool(more, w), q) {
      ElsewhereUnchanged(legs, leg, q, w);
    }
    hide PoolsIn, OfPool, OfWallet, Marked;
    SumAgrees(PoolsIn(legs) - {p}, MarkedByPool(legs, w), MarkedByPool(more, w));
    assert PoolsIn(more) - {p} == PoolsIn(legs) - {p};
  }

  /** Leaving a pool adds its mark. */
  lemma MarkedSumLeave(legs: seq<Leg>, p: string, w: string)
    requires AllValued(legs)
    ensures Sum(PoolsIn(legs), MarkedByPool(legs, w)) == Sum(PoolsIn(legs) - {p}, MarkedByPool(legs, w)) + Marked(legs, p, w)
  {
    NoLegsOutside(legs, p);
    if p in PoolsIn(legs) {
      SumWithout(PoolsIn(legs), MarkedByPool(legs, w), p);
    } else {
      assert PoolsIn(legs) - {p} == PoolsIn(legs);
      assert Marked(legs, p, w) == 0.0;
    }
  }

  // ----- the pass

  datatype Pos = Pos(qty: real, cost: real, entry: int)

  datatype Agg = Agg(realized: real, unrealized: real, open: nat)

  function AggOf(agg: map<string, Agg>, w: string): Agg {
    if w in agg then agg[w] else Agg(0.0, 0.0, 0)
  }

  predicate Tracks(positions: map<string, Pos>, a: Acct, w: string) {
    && (w in positions <==> a.qty > 0.0)
    && (w in positions ==> positions[w] == Pos(a.qty, a.cost, positions[w].entry) && a.entry == Some(positions[w].entry))
  }

  /** Positions after a leg of the current pool. */
  function Moved(positions: map<string, Pos>, leg: Leg): map<string, Pos>
    requires leg.Valued()
  {
    var w := leg.wallet;
    if leg.side == Buy then
      if w in positions then
        positions[w := Pos(positions[w].qty + leg.qty, positions[w].cost + leg.value, positions[w].entry)]
      else positions[w := Pos(leg.qty, leg.value, leg.block)]
    else if w !in positions || positions[w].qty <= 0.0 then positions
    else
      var a := Acct(positions[w].qty, positions[w].cost, 0.0, None);
      var sold := SoldOf(a, leg);
      if a.qty - sold <= DUST then positions - {w}
      else positions[w := Pos(a.qty - sold, Max(0.0, a.cost - CostOf(a, sold)), positions[w].entry)]
  }

  /** Profit the leg realises, if it closes anything. */
  function GainOf(positions: map<string, Pos>, leg: Leg): Option<real>
    requires leg.Valued()
  {
    var w := leg.wallet;
    if leg.side == Buy || w !in positions || positions[w].qty <= 0.0 then None
    else
      var a := Acct(positions[w].qty, positions[w].cost, 0.0, None);
      var sold := SoldOf(a, leg);
      Some(Proceeds(leg, sold) - CostOf(a, sold))
  }

  function Credited(agg: map<string, Agg>, positions: map<string, Pos>, leg: Leg): map<string, Agg>
    requires leg.Valued()
  {
    var gain := GainOf(positions, leg);
    if gain == None then agg
    else agg[leg.wallet := AggOf(agg, leg.wallet).(realized := AggOf(agg, leg.wallet).realized + gain.value)]
  }

  method ApplyLeg(positions: map<string, Pos>, agg: map<string, Agg>, leg: Leg)
    returns (positions': map<string, Pos>, agg': map<string, Agg>)
    requires leg.Valued()
    ensures positions' == Moved(positions, leg) && agg' == Credited(agg, positions, leg)
  {
    positions', agg' := positions, agg;
    var w := leg.wallet;
    if leg.side == Buy {
      if w !in positions {
        positions' := positions[w := Pos(leg.qty, leg.value, leg.block)];
      } else {
        var pos := positions[w];
        positions' := positions[w := Pos(pos.qty + leg.qty, pos.cost + leg.value, pos.entry)];
      }
    } else if w in positions && positions[w].qty > 0.0 {
      var pos := positions[w];
      var a := Acct(pos.qty, pos.cost, 0.0, None);
      var sold := SoldOf(a, leg);
      var proceeds, cogs := Proceeds(leg, sold), CostOf(a, sold);
      var row := AggOf(agg, w);
      agg' := agg[w := row.(realized := row.realized + (proceeds - cogs))];
      var cost := Max(0.0, pos.cost - cogs);
      positions' := positions[w := Pos(pos.qty - sold, cost, pos.entry)];
      if pos.qty - sold <= DUST {
        positions' := positions' - {w};
        assert positions' == positions - {w};
      }
    }
  }

  /** The position moves as the account does, and the gain is the account's. */
  lemma MovedTracks(positions: map<string, Pos>, agg: map<string, Agg>, a: Acct, leg: Leg)
    requires leg.Valued() && Sound(a) && Tracks(positions, a, leg.wallet)
    ensures Tracks(Moved(positions, leg), Fill(a, leg), leg.wallet)
    ensures AggOf(Credited(agg, positions, leg), leg.wallet)
         == AggOf(agg, leg.wallet).(realized := AggOf(agg, leg.wallet).realized + (Fill(a, leg).realized - a.realized))
  {
    if leg.side == Sell && a.qty > 0.0 {
      CostBounds(a, SoldOf(a, leg));
      var b := Acct(a.qty, a.cost, 0.0, None);
      assert CostOf(b, SoldOf(a, leg)) == CostOf(a, SoldOf(a, leg));
      hide CostOf, Proceeds;
    }
  }

  lemma MovedElsewhere(positions: map<string, Pos>, agg: map<string, Agg>, a: Acct, leg: Leg, w: string)
    requires leg.Valued() && w != leg.wallet && Tracks(positions, a, w)
    ensures Tracks(Moved(positions, leg), a, w) && AggOf(Credited(agg, positions, leg), w) == AggOf(agg, w)
  {
    hide CostOf, Proceeds, SoldOf;
  }

  /** `_mark_open`: positions above dust are marked at the last price, if there is one. */
  method MarkOpen(positions: map<string, Pos>, last: Option<real>, agg: map<string, Agg>) returns (agg': map<string, Agg>)
    ensures forall w :: AggOf(agg', w).realized == AggOf(agg, w).realized
    ensures forall w :: AggOf(agg', w).unrealized == AggOf(agg, w).unrealized + MarkOf(positions, last, w)
  {
    agg' := agg;
    if last == None || last.value <= 0.0 { return; }
    var rest := positions.Keys;
    while rest != {}
      invariant rest <= positions.Keys
      invariant forall w :: AggOf(agg', w).realized == AggOf(agg, w).realized
      invariant forall w :: AggOf(agg', w).unrealized
                         == AggOf(agg, w).unrealized + (if w in rest then 0.0 else MarkOf(positions, last, w))
      decreases |rest|
    {
      var w :| w in rest;
      rest := rest - {w};
      if positions[w].qty > DUST {
        var a := AggOf(agg', w);
        agg' := agg'[w := Agg(a.realized, a.unrealized + (positions[w].qty * last.value - positions[w].cost), a.open + 1)];
      }
    }
  }

  function MarkOf(positions: map<string, Pos>, last: Option<real>, w: string): real {
    if last == None || last.value <= 0.0 || w !in positions || positions[w].qty <= DUST then 0.0
    else positions[w].qty * last.value - positions[w].cost
  }

  // ----- what the pass has added up so far

  datatype Row = Row(pool: string, leg: Option<Leg>)

  function RowOf(swap: Swap, pools: map<string, (string, string)>, tokens: Tokens): Row {
    var p := Lower(swap.pool);
    Row(p, LegFromSwap(swap.(pool := p), pools, tokens))
  }

  /** Every valued swap is booked under its own pool. */
  lemma RowIsValued(swap: Swap, pools: map<string, (string, string)>, tokens: Tokens)
    ensures RowsValued([RowOf(swap, pools, tokens)])
  {
    hide Quoted, Pow10, Lower;
    LowerIdempotent(swap.pool);
    LegIsValued(swap.(pool := Lower(swap.pool)), pools, tokens);
  }

  function Legs(rows: seq<Row>): seq<Leg> {
    if |rows| == 0 then []
    else Legs(rows[..|rows| - 1]) + (if rows[|rows| - 1].leg == None then [] else [rows[|rows| - 1].leg.value])
  }

  predicate RowsValued(rows: seq<Row>) {
    forall i :: 0 <= i < |rows| && rows[i].leg.Some? ==> rows[i].leg.value.Valued() && rows[i].leg.value.pool == rows[i].pool
  }

  /** Rows of one pool are not interrupted by another pool. */
  predicate ByPool(rows: seq<Row>) {
    forall i, j, k :: 0 <= i < j < k < |rows| && rows[i].pool == rows[k].pool ==> rows[j].pool == rows[i].pool
  }

  /** With c the current pool: its positions and last price, and per wallet the
      realised sum over all pools and the marks of the pools already left. */
  ghost predicate Streaming(legs: seq<Leg>, c: string, positions: map<string, Pos>, last: Option<real>, agg: map<string, Agg>) {
    && AllValued(legs)
    && (forall w :: Tracks(positions, Held(legs, c, w), w))
    && last == PriceOf(legs, c)
    && (forall w :: AggOf(agg, w).realized == Sum(PoolsIn(legs), RealizedByPool(legs, w)))
    && (forall w :: AggOf(agg, w).unrealized == Sum(PoolsIn(legs) - {c}, MarkedByPool(legs, w)))
  }

  /** The final figures of one wallet. */
  ghost predicate Reported(legs: seq<Leg>, agg: map<string, Agg>, w: string)
    requires AllValued(legs)
  {
    && AggOf(agg, w).realized == Sum(PoolsIn(legs), RealizedByPool(legs, w))
    && AggOf(agg, w).unrealized == Sum(PoolsIn(legs), MarkedByPool(legs, w))
  }

  lemma StreamingLeg(legs: seq<Leg>, leg: Leg, positions: map<string, Pos>, last: Option<real>, agg: map<string, Agg>)
    requires Streaming(legs, leg.pool, positions, last, agg) && leg.Valued()
    ensures Streaming(legs + [leg], leg.pool, Moved(positions, leg), Some(leg.Price()), Credited(agg, positions, leg))
  {
    hide Tracks, Held, Moved, Credited, Fill, PriceOf, RealizedByPool, MarkedByPool, PoolsIn, Sum, Sound;
    var c, more := leg.pool, legs + [leg];
    forall w
      ensures Tracks(Moved(positions, leg), Held(more, c, w), w)
      ensures AggOf(Credited(agg, positions, leg), w).realized == Sum(PoolsIn(more), RealizedByPool(more, w))
      ensures AggOf(Credited(agg, positions, leg), w).unrealized == Sum(PoolsIn(more) - {c}, MarkedByPool(more, w))
    {
      HeldStep(legs, leg, w);
      RealizedSumStep(legs, leg, w);
      MarkedSumStep(legs, leg, w);
      HeldIsSound(legs, c, w);
      if w == leg.wallet {
        MovedTracks(positions, agg, Held(legs, c, w), leg);
      } else {
        MovedElsewhere(positions, agg, Held(legs, c, w), leg, w);
      }
    }
    HeldStep(legs, leg, leg.wallet);
  }

  lemma HeldIsSound(legs: seq<Leg>, p: string, w: string)
    requires AllValued(legs)
    ensures Sound(Held(legs, p, w))
  {
    BookIsSound(Traded(legs, p, w));
  }

  /** Marking the pool being left closes its account in the sums. */
  lemma StreamingLeave(legs: seq<Leg>, c: string, positions: map<string, Pos>, last: Option<real>,
                       agg: map<string, Agg>, agg': map<string, Agg>, w: string)
    requires Streaming(legs, c, positions, last, agg)
    requires AggOf(agg', w).realized == AggOf(agg, w).realized
    requires AggOf(agg', w).unrealized == AggOf(agg, w).unrealized + MarkOf(positions, last, w)
    ensures Reported(legs, agg', w)
  {
    hide Held, PriceOf, Sum, PoolsIn, RealizedByPool, MarkedByPool, Marked, MarkOf, Sound, Tracks;
    MarkedSumLeave(legs, c, w);
    HeldIsSound(legs, c, w);
    MarkIsMarked(legs, c, positions, w);
  }

  lemma MarkIsMarked(legs: seq<Leg>, c: string, positions: map<string, Pos>, w: string)
    requires AllValued(legs) && Tracks(positions, Held(legs, c, w), w) && Sound(Held(legs, c, w))
    ensures MarkOf(positions, PriceOf(legs, c), w) == Marked(legs, c, w)
  {
    hide Held, PriceOf;
  }

  /** A pool not seen before starts empty. */
  lemma StreamingEnter(legs: seq<Leg>, p: string, agg: map<string, Agg>)
    requires AllValued(legs) && p !in PoolsIn(legs) && forall w :: Reported(legs, agg, w)
    ensures Streaming(legs, p, map[], None, agg)
  {
    hide RealizedByPool, MarkedByPool, PoolsIn, Sum;
    NoLegsOutside(legs, p);
    assert PoolsIn(legs) - {p} == PoolsIn(legs);
    forall w
      ensures Tracks(map[], Held(legs, p, w), w)
      ensures AggOf(agg, w).realized == Sum(PoolsIn(legs), RealizedByPool(legs, w))
      ensures AggOf(agg, w).unrealized == Sum(PoolsIn(legs) - {p}, MarkedByPool(legs, w))
    {
      assert OfWallet([], w) == [];
      assert Reported(legs, agg, w);
    }
  }

  lemma RowsStep(rows: seq<Row>, i: nat)
    requires i < |rows| && RowsValued(rows)
    ensures Legs(rows[..i + 1]) == if rows[i].leg == None then Legs(rows[..i]) else Legs(rows[..i]) + [rows[i].leg.value]
  {
    assert rows[..i + 1][..i] == rows[..i];
  }

  lemma {:induction false} LegsOfRows(rows: seq<Row>)
    requires RowsValued(rows)
    ensures AllValued(Legs(rows))
    ensures forall p :: p in PoolsIn(Legs(rows)) ==> exists i :: 0 <= i < |rows| && rows[i].pool == p
  {
    if |rows| > 0 {
      var before, last := rows[..|rows| - 1], rows[|rows| - 1];
      LegsOfRows(before);
      if last.leg.Some? { PoolsStep(Legs(before), last.leg.value); }
      forall p | p in PoolsIn(Legs(rows)) ensures exists i :: 0 <= i < |rows| && rows[i].pool == p {
        if p in PoolsIn(Legs(before)) {
          var i :| 0 <= i < |before| && before[i].pool == p;
          assert rows[i].pool == p;
        } else {
          assert rows[|rows| - 1].pool == p;
        }
      }
    }
  }

  /** When the pool changes, contiguous rows make the new pool an unseen one. */
  lemma FreshPool(rows: seq<Row>, i: nat)
    requires RowsValued(rows) && ByPool(rows) && 0 < i < |rows| && rows[i].pool != rows[i - 1].pool
    ensures rows[i].pool !in PoolsIn(Legs(rows[..i]))
  {
    LegsOfRows(rows[..i]);
    hide PoolsIn, Legs;
    assert forall j :: 0 <= j < i ==> rows[..i][j].pool == rows[j].pool;
  }

  lemma NothingYet()
    ensures Streaming([], "", map[], None, map[])
  {
    assert PoolsIn([]) == {};
  }

  lemma UnseenPool(rows: seq<Row>, i: nat)
    requires RowsValued(rows) && ByPool(rows) && i < |rows| && (i > 0 ==> rows[i].pool != rows[i - 1].pool)
    ensures rows[i].pool !in PoolsIn(Legs(rows[..i]))
  {
    if i == 0 {
      assert Legs(rows[..0]) == [];
    } else {
      FreshPool(rows, i);
    }
  }

  /** `_mark_open(positions, last_price, agg, counts)` on leaving pool c. */
  method LeavePool(ghost legs: seq<Leg>, ghost c: string, positions: map<string, Pos>, last: Option<real>, agg: map<string, Agg>)
    returns (agg': map<string, Agg>)
    requires Streaming(legs, c, positions, last, agg)
    ensures AllValued(legs) && forall w :: Reported(legs, agg', w)
  {
    agg' := MarkOpen(positions, last, agg);
    assert AllValued(legs);
    hide Streaming, Reported, MarkOf;
    forall w ensures Reported(legs, agg', w) {
      StreamingLeave(legs, c, positions, last, agg, agg', w);
    }
  }

  /** `stream_pnl_pg`: per wallet, realised and unrealised profit summed over pools. */
  method StreamPnl(rows: seq<Row>) returns (agg: map<string, Agg>)
    requires RowsValued(rows) && ByPool(rows)
    ensures AllValued(Legs(rows)) && forall w :: Reported(Legs(rows), agg, w)
  {
    hide Streaming, Reported, Moved, Credited, MarkOf, Legs, ByPool, PoolsIn;
    agg := map[];
    var cur: Option<string> := None;
    var positions: map<string, Pos>, last: Option<real> := map[], None;
    ghost var c := "";
    NoRows(rows);
    NothingYet();
    for i := 0 to |rows|
      invariant cur == (if i == 0 then None else Some(rows[i - 1].pool)) && (i > 0 ==> cur == Some(c))
      invariant Streaming(Legs(rows[..i]), c, positions, last, agg)
    {
      var row := rows[i];
      if cur != Some(row.pool) {
        UnseenPool(rows, i);
        agg := LeavePool(Legs(rows[..i]), c, positions, last, agg);
        positions, last, cur := map[], None, Some(row.pool);
        c := row.pool;
        StreamingEnter(Legs(rows[..i]), c, agg);
      }
      RowsStep(rows, i);
      if row.leg != None {
        var leg := row.leg.value;
        StreamingLeg(Legs(rows[..i]), leg, positions, last, agg);
        last := Some(leg.Price());
        positions, agg := ApplyLeg(positions, agg, leg);
      }
    }
    assert rows[..|rows|] == rows;
    agg := LeavePool(Legs(rows), c, positions, last, agg);
  }

  lemma NoRows(rows: seq<Row>)
    ensures Legs(rows[..0]) == []
  {
  }
}
