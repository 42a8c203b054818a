/** arc-intel/execution/copy_keeper.py and copy.py: mirror a leader's trades above a block cursor, retrying from the first failure. */
module CopyEngine {

  datatype Trade = Trade(id: int, block: int, token: string, side: string, value: real)

  // ----- decide

  datatype Settings = Settings(minBuy: real, maxOpen: nat, proportional: bool, flat: real, mirrorSells: bool, round6: real -> real)

  datatype Decision = Skip(reason: string) | BuyFor(usdc: real) | SellAll

  function PlanSize(value: real, s: Settings): real {
    if s.proportional then s.round6(value) else s.round6(s.flat)
  }

  /** `decide`, for a follower with `openCount` open positions that holds the token or not. */
  function Decide(t: Trade, s: Settings, openCount: nat, holding: bool): Decision {
    if t.side == "buy" then
      if t.value < s.minBuy then Skip("below_min")
      else if s.maxOpen != 0 && openCount >= s.maxOpen && !holding then Skip("max_open")
      else if PlanSize(t.value, s) <= 0.0 then Skip("no_size")
      else BuyFor(PlanSize(t.value, s))
    else if t.side == "sell" then
      if !s.mirrorSells then Skip("mirror_off")
      else if !holding then Skip("no_position")
      else SellAll
    else Skip("unknown_side")
  }

  /** A leader's buy is copied exactly when it is large enough, has a size, and the
      follower holds the token or has a position to spare; a sale exactly when sales
      are mirrored and there is something to sell. */
  lemma DecideIff(t: Trade, s: Settings, openCount: nat, holding: bool)
    ensures Decide(t, s, openCount, holding).BuyFor?
       <==> t.side == "buy" && t.value >= s.minBuy && PlanSize(t.value, s) > 0.0
            && (holding || s.maxOpen == 0 || openCount < s.maxOpen)
    ensures Decide(t, s, openCount, holding).SellAll? <==> t.side == "sell" && s.mirrorSells && holding
  {
    assert "buy" != "sell" by { assert "buy"[0] != "sell"[0]; }
  }

  /** A skipped trade carries the first reason that applies. */
  lemma SkipsFor(t: Trade, s: Settings, openCount: nat, holding: bool)
    ensures var d, full := Decide(t, s, openCount, holding), s.maxOpen != 0 && openCount >= s.maxOpen && !holding;
            && (d == Skip("below_min") <==> t.side == "buy" && t.value < s.minBuy)
            && (d == Skip("max_open") <==> t.side == "buy" && t.value >= s.minBuy && full)
            && (d == Skip("no_size") <==> t.side == "buy" && t.value >= s.minBuy && !full && PlanSize(t.value, s) <= 0.0)
            && (d == Skip("mirror_off") <==> t.side == "sell" && !s.mirrorSells)
            && (d == Skip("no_position") <==> t.side == "sell" && s.mirrorSells && !holding)
            && (d == Skip("unknown_side") <==> t.side != "buy" && t.side != "sell")
  {
    assert |"below_min"| == 9 && |"max_open"| == 8 && |"no_size"| == 7 && |"mirror_off"| == 10 && |"no_position"| == 11;
    assert |"unknown_side"| == 12 && |"buy"| == 3 && |"sell"| == 4;
    hide PlanSize;
  }

  /** A copied buy spends the rounded value of the leader's trade in proportional mode,
      the rounded flat amount in flat mode. */
  lemma BuySpends(t: Trade, s: Settings, openCount: nat, holding: bool)
    requires Decide(t, s, openCount, holding).BuyFor?
    ensures Decide(t, s, openCount, holding).usdc == (if s.proportional then s.round6(t.value) else s.round6(s.flat))
    ensures Decide(t, s, openCount, holding).usdc > 0.0
  {
  }

  /** In proportional mode the flat amount changes no decision; in flat mode two buys of
      different value spend the same. */
  lemma SizingIgnores(t: Trade, u: Trade, s: Settings, flat: real, n: nat, m: nat, holds: bool, held: bool)
    ensures s.proportional ==> Decide(t, s.(flat := flat), n, holds) == Decide(t, s, n, holds)
    ensures !s.proportional && Decide(t, s, n, holds).BuyFor? && Decide(u, s, m, held).BuyFor? ==>
              Decide(t, s, n, holds).usdc == Decide(u, s, m, held).usdc
  {
  }

  /** Rounding keeps the order of amounts. */
  ghost predicate Rounds(s: Settings) {
    forall x, y :: x <= y ==> s.round6(x) <= s.round6(y)
  }

  /** A copied buy stays copied, for no less, when the leader's trade is larger and the
      follower has no more positions open or comes to hold the token. */
  lemma BuysAreMonotone(t: Trade, u: Trade, s: Settings, n: nat, m: nat, holds: bool, held: bool)
    requires Rounds(s) && u.side == t.side && u.value >= t.value && m <= n && (holds ==> held)
    requires Decide(t, s, n, holds).BuyFor?
    ensures Decide(u, s, m, held).BuyFor? && Decide(u, s, m, held).usdc >= Decide(t, s, n, holds).usdc
  {
    DecideIff(t, s, n, holds);
    DecideIff(u, s, m, held);
  }

  // ----- one leader's trades

  /** What happens to a trade that is decided on: an exception before anything is sent,
      one after the swap went through, before or after the tracked position moved, an
      executor that declines, or a fill; a sale may or may not close the position. */
  datatype Fate = DecideRaises | Raises | RaisesAfterSwap(moved: bool) | Declined | Filled(closes: bool)

  /** A buy that was sent, and the amount it spent. */
  datatype Bought = Bought(trade: Trade, usdc: real)

  /** Progress through one leader's fetched trades. `done` are the swaps sent, `lost`
      those of them an exception hid from the cursor, `bought` the buys among them. */
  datatype Progress = Progress(advanced: int, stopped: bool, settled: nat, done: multiset<Trade>, lost: multiset<Trade>,
                               open: set<string>, cache: nat, bought: seq<Bought>)

  function Max(x: int, y: int): int {
    if x >= y then x else y
  }

  function Settle(v: Progress, t: Trade): Progress {
    v.(settled := v.settled + 1, advanced := Max(v.advanced, t.block))
  }

  function Spending(t: Trade, d: Decision): seq<Bought> {
    if d.BuyFor? then [Bought(t, d.usdc)] else []
  }

  /** The open positions after a recorded fill. */
  function Tracked(open: set<string>, d: Decision, token: string, closes: bool): set<string> {
    if d.BuyFor? then open + {token} else if closes then open - {token} else open
  }

  function Visit(s: Settings, v: Progress, t: Trade, fate: Fate): Progress {
    if v.stopped then v
    else if fate == DecideRaises then v.(stopped := true)
    else
      var d := Decide(t, s, v.cache, t.token in v.open);
      if d.Skip? then Settle(v, t)
      else match fate
        case Raises => v.(stopped := true)
        case RaisesAfterSwap(moved) =>
          v.(stopped := true, done := v.done + multiset{t}, lost := v.lost + multiset{t}, bought := v.bought + Spending(t, d),
             open := if moved then Tracked(v.open, d, t.token, true) else v.open)
        case Declined => Settle(v, t)
        case Filled(closes) =>
          var open := Tracked(v.open, d, t.token, closes);
          Settle(v.(done := v.done + multiset{t}, bought := v.bought + Spending(t, d), open := open, cache := if d.BuyFor? then |open| else v.cache), t)
  }

  function FateOf(fates: map<int, Fate>, t: Trade): Fate {
    if t.id in fates then fates[t.id] else Declined
  }

  function VisitAll(s: Settings, v: Progress, trades: seq<Trade>, fates: map<int, Fate>): Progress {
    if |trades| == 0 then v
    else Visit(s, VisitAll(s, v, trades[..|trades| - 1], fates), trades[|trades| - 1], FateOf(fates, trades[|trades| - 1]))
  }

  lemma {:induction false} SettledAtMost(s: Settings, v: Progress, trades: seq<Trade>, fates: map<int, Fate>)
    ensures VisitAll(s, v, trades, fates).settled <= v.settled + |trades|
  {
    if |trades| > 0 {
      SettledAtMost(s, v, trades[..|trades| - 1], fates);
      hide Decide;
    }
  }

  function Begin(last: int, open: set<string>, cache: nat): Progress {
    Progress(last, false, 0, multiset{}, multiset{}, open, cache, [])
  }

  /** `recent_wallet_legs`: the first `limit` rows above the block. */
  function Above(table: seq<Trade>, since: int): (r: seq<Trade>)
    ensures forall i :: 0 <= i < |r| ==> r[i].block > since && r[i] in table
  {
    if |table| == 0 then []
    else Above(table[..|table| - 1], since) + (if table[|table| - 1].block > since then [table[|table| - 1]] else [])
  }

  function Recent(table: seq<Trade>, since: int, limit: nat): (r: seq<Trade>)
    ensures forall i :: 0 <= i < |r| ==> r[i].block > since && r[i] in table
  {
    var all := Above(table, since);
    if |all| > limit then all[..limit] else all
  }

  /** The inner loop: `break` on the first exception. */
  method MirrorTrades(s: Settings, last: int, trades: seq<Trade>, fates: map<int, Fate>, open: set<string>, cache: nat)
    returns (v: Progress)
    requires forall i :: 0 <= i < |trades| ==> trades[i].block > last
    ensures v == VisitAll(s, Begin(last, open, cache), trades, fates)
  {
    hide Visit, VisitAll;
    v := Begin(last, open, cache);
    VisitNone(s, v, trades, fates);
    for i := 0 to |trades|
      invariant v == VisitAll(s, Begin(last, open, cache), trades[..i], fates) && !v.stopped
    {
      VisitMore(s, Begin(last, open, cache), trades, i, fates);
      v := MirrorTrade(s, v, trades[i], FateOf(fates, trades[i]));
      if v.stopped {
        StoppedStays(s, Begin(last, open, cache), trades, i + 1, fates);
        return;
      }
    }
    assert trades[..|trades|] == trades;
  }

  lemma VisitNone(s: Settings, v: Progress, trades: seq<Trade>, fates: map<int, Fate>)
    ensures VisitAll(s, v, trades[..0], fates) == v
  {
  }

  /** Lines 126-162 for one trade. */
  method MirrorTrade(s: Settings, v: Progress, t: Trade, fate: Fate) returns (v': Progress)
    requires !v.stopped
    ensures v' == Visit(s, v, t, fate)
  {
    v' := v;
    if fate == DecideRaises {
      return v.(stopped := true);
    }
    var d := Decide(t, s, v.cache, t.token in v.open);
    hide Decide;
    if d.Skip? || fate == Declined {
      v' := v.(settled := v.settled + 1, advanced := Max(v.advanced, t.block));
    } else if fate == Raises {
      v' := v.(stopped := true);
    } else if fate.RaisesAfterSwap? {
      var open := v.open;
      if fate.moved {
        open := if d.BuyFor? then open + {t.token} else open - {t.token};
      }
      v' := v.(stopped := true, done := v.done + multiset{t}, lost := v.lost + multiset{t}, open := open,
               bought := v.bought + if d.BuyFor? then [Bought(t, d.usdc)] else []);
    } else {
      var open, cache := v.open, v.cache;
      if d.BuyFor? {
        open := open + {t.token};
        cache := |open|;
      } else if fate.closes {
        open := open - {t.token};
      }
      v' := v.(settled := v.settled + 1, advanced := Max(v.advanced, t.block), done := v.done + multiset{t},
               open := open, cache := cache, bought := v.bought + if d.BuyFor? then [Bought(t, d.usdc)] else []);
    }
  }

  lemma VisitMore(s: Settings, v: Progress, trades: seq<Trade>, i: nat, fates: map<int, Fate>)
    requires i < |trades|
    ensures VisitAll(s, v, trades[..i + 1], fates)
         == Visit(s, VisitAll(s, v, trades[..i], fates), trades[i], FateOf(fates, trades[i]))
  {
    hide Visit, FateOf;
    assert trades[..i + 1][..i] == trades[..i];
  }

  /** `break` leaves the rest of the trades alone. */
  lemma {:induction false} StoppedStays(s: Settings, v: Progress, trades: seq<Trade>, i: nat, fates: map<int, Fate>)
    requires i <= |trades| && VisitAll(s, v, trades[..i], fates).stopped
    ensures VisitAll(s, v, trades, fates) == VisitAll(s, v, trades[..i], fates)
    decreases |trades| - i
  {
    if i == |trades| {
      assert trades[..i] == trades;
    } else {
      VisitMore(s, v, trades, i, fates);
      StoppedStays(s, v, trades, i + 1, fates);
    }
  }

  // ----- what one leader's pass settles

  predicate InOrder(trades: seq<Trade>) {
    forall i, j :: 0 <= i < j < |trades| ==> trades[i].block <= trades[j].block && trades[i] != trades[j]
  }

  /** The settled trades are a prefix, the cursor goes to the last of them, and every
      swap that is not lost is among them. */
  ghost predicate Settled(last: int, trades: seq<Trade>, v: Progress) {
    && v.settled <= |trades| && (v.stopped <==> v.settled < |trades|)
    && v.advanced == (if v.settled == 0 then last else trades[v.settled - 1].block)
    && (forall t :: v.done[t] <= 1 && v.lost[t] <= v.done[t])
    && (forall t :: t in v.done ==> t in trades && t.block > last)
    && (forall t :: v.done[t] > v.lost[t] ==> t.block <= v.advanced)
  }

  /** One visit either stops, losing at most this trade's swap, or settles the trade. */
  ghost predicate Stops(v: Progress, v': Progress, t: Trade) {
    && v'.stopped && v'.settled == v.settled && v'.advanced == v.advanced
    && ((v'.done == v.done && v'.lost == v.lost) || (v'.done == v.done + multiset{t} && v'.lost == v.lost + multiset{t}))
  }

  ghost predicate Settles(v: Progress, v': Progress, t: Trade) {
    && !v'.stopped && v'.settled == v.settled + 1 && v'.advanced == Max(v.advanced, t.block) && v'.lost == v.lost
    && (v'.done == v.done || v'.done == v.done + multiset{t})
  }

  lemma VisitShape(s: Settings, v: Progress, t: Trade, fate: Fate)
    requires !v.stopped
    ensures Stops(v, Visit(s, v, t, fate), t) || Settles(v, Visit(s, v, t, fate), t)
  {
    hide Decide;
  }

  lemma AdvancedStep(last: int, trades: seq<Trade>, t: Trade, v: Progress)
    requires Settled(last, trades, v) && !v.stopped && InOrder(trades + [t]) && t.block > last
    ensures Max(v.advanced, t.block) == t.block && t !in v.done && (trades + [t])[|trades|] == t
    ensures forall i :: 0 <= i < |trades| ==> (trades + [t])[i] == trades[i]
  {
    var more := trades + [t];
    assert more[|trades|] == t;
    forall i | 0 <= i < |trades| ensures more[i] == trades[i] && trades[i].block <= t.block && trades[i] != t {}
  }

  lemma SettledLonger(last: int, trades: seq<Trade>, t: Trade, v: Progress)
    requires Settled(last, trades, v) && v.stopped
    ensures Settled(last, trades + [t], v)
  {
    assert (trades + [t])[..|trades|] == trades;
    assert forall x :: x in trades ==> x in trades + [t];
  }

  /** Sent and lost after a visit stay within the trades seen so far. */
  lemma CountsStep(last: int, trades: seq<Trade>, t: Trade, v: Progress, v': Progress)
    requires Settled(last, trades, v) && t !in v.done && t.block > last
    requires Stops(v, v', t) || (Settles(v, v', t) && v'.advanced >= v.advanced && v'.advanced >= t.block)
    ensures forall x :: v'.done[x] <= 1 && v'.lost[x] <= v'.done[x]
    ensures forall x :: x in v'.done ==> x in trades + [t] && x.block > last
    ensures forall x :: v'.done[x] > v'.lost[x] ==> x.block <= v'.advanced
  {
    hide Max;
    var more := trades + [t];
    assert more[|trades|] == t;
    forall x ensures v'.done[x] <= 1 && v'.lost[x] <= v'.done[x] && (x in v'.done ==> x in more && x.block > last) {
      assert v.done[x] <= 1 && v.lost[x] <= v.done[x];
    }
    forall x | v'.done[x] > v'.lost[x] ensures x.block <= v'.advanced {
      if x != t { assert v.done[x] > v.lost[x]; }
    }
  }

  lemma StoppedVisit(s: Settings, v: Progress, t: Trade, fate: Fate)
    requires v.stopped
    ensures Visit(s, v, t, fate) == v
  {
  }

  lemma SettledStep(s: Settings, last: int, trades: seq<Trade>, t: Trade, v: Progress, fate: Fate)
    requires Settled(last, trades, v) && InOrder(trades + [t]) && t.block > last
    ensures Settled(last, trades + [t], Visit(s, v, t, fate))
  {
    hide InOrder, Visit, Max;
    var v' := Visit(s, v, t, fate);
    if v.stopped {
      StoppedVisit(s, v, t, fate);
      SettledLonger(last, trades, t, v);
    } else {
      VisitShape(s, v, t, fate);
      AdvancedStep(last, trades, t, v);
      AdvancedGrows(v.advanced, t.block);
      CountsStep(last, trades, t, v, v');
    }
  }

  lemma AdvancedGrows(x: int, y: int)
    ensures Max(x, y) >= x && Max(x, y) >= y
  {
  }

  lemma NothingSettled(s: Settings, last: int, trades: seq<Trade>, fates: map<int, Fate>, open: set<string>, cache: nat)
    requires |trades| == 0
    ensures Settled(last, trades, VisitAll(s, Begin(last, open, cache), trades, fates))
  {
  }

  lemma InOrderBefore(trades: seq<Trade>)
    requires InOrder(trades) && |trades| > 0
    ensures InOrder(trades[..|trades| - 1])
  {
  }

  lemma {:induction false} PassSettles(s: Settings, last: int, trades: seq<Trade>, fates: map<int, Fate>, open: set<string>, cache: nat)
    requires InOrder(trades) && forall i :: 0 <= i < |trades| ==> trades[i].block > last
    ensures Settled(last, trades, VisitAll(s, Begin(last, open, cache), trades, fates))
  {
    hide *;
    if |trades| == 0 {
      NothingSettled(s, last, trades, fates, open, cache);
    } else {
      var n := |trades| - 1;
      InOrderBefore(trades);
      PassSettles(s, last, trades[..n], fates, open, cache);
      assert trades[..n] + [trades[n]] == trades && trades[..|trades|] == trades;
      SettledStep(s, last, trades[..n], trades[n], VisitAll(s, Begin(last, open, cache), trades[..n], fates), FateOf(fates, trades[n]));
      VisitMore(s, Begin(last, open, cache), trades, n, fates);
    }
  }
}
