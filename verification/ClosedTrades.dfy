/** `closed_trades` of arc-intel/indexer/pnl.py: one trade per sale, by (wallet, token). */
module ClosedTrades {
  import opened Options
  import opened Lists
  import opened Reals
  import opened Pnl

  datatype Trade = Trade(wallet: string, token: string, qty: real, cost: real, proceeds: real, realized: real,
                         multiple: real, entry: int, exit: int)

  type Key = (string, string)

  function KeyOf(leg: Leg): Key {
    (leg.wallet, leg.token)
  }

  /** The trade a leg closes, if any: block 0 counts as no entry block. */
  function TradeAt(a: Acct, leg: Leg): seq<Trade>
    requires leg.Valued()
  {
    if leg.side == Buy || a.qty <= 0.0 then []
    else
      var sold := SoldOf(a, leg);
      var cost, proceeds := CostOf(a, sold), Proceeds(leg, sold);
      [Trade(leg.wallet, leg.token, sold, cost, proceeds, proceeds - cost,
             if cost > 0.0 then proceeds / cost else 0.0,
             if a.entry == None || a.entry == Some(0) then leg.block else a.entry.value, leg.block)]
  }

  function Trades(legs: seq<Leg>): seq<Trade>
    requires AllValued(legs)
  {
    if |legs| == 0 then []
    else Trades(legs[..|legs| - 1]) + TradeAt(Book(legs[..|legs| - 1]), legs[|legs| - 1])
  }

  /** The inner loop, over the time-ordered legs of one key. */
  method CloseGroup(evs: seq<Leg>) returns (out: seq<Trade>)
    requires AllValued(evs)
    ensures out == Trades(evs)
  {
    hide Book, Trades, CostOf, Proceeds, SoldOf, Sound;
    NoLegsYet(evs);
    out := [];
    var qty, cost := 0.0, 0.0;
    var entry: Option<int> := None;
    ghost var realized := 0.0;
    for i := 0 to |evs|
      invariant Book(evs[..i]) == Acct(qty, cost, realized, entry) && Sound(Book(evs[..i]))
      invariant out == Trades(evs[..i])
    {
      var leg := evs[i];
      OneMoreLeg(evs, i);
      ghost var a := Acct(qty, cost, realized, entry);
      FillIsSound(a, leg);
      realized := Fill(a, leg).realized;
      if leg.side == Buy {
        qty := qty + leg.qty;
        cost := cost + leg.value;
        if entry == None { entry := Some(leg.block); }
      } else if qty > 0.0 {
        var before := Acct(qty, cost, 0.0, entry);
        var sold := SoldOf(before, leg);
        var proceeds, cogs := Proceeds(leg, sold), CostOf(before, sold);
        SameCost(before, a, sold);
        out := out + [Trade(leg.wallet, leg.token, sold, cogs, proceeds, proceeds - cogs,
                            if cogs > 0.0 then proceeds / cogs else 0.0,
                            if entry == None || entry == Some(0) then leg.block else entry.value, leg.block)];
        qty := qty - sold;
        cost := cost - cogs;
        if qty <= DUST {
          qty, cost, entry := 0.0, 0.0, None;
        }
      }
    }
    assert evs[..|evs|] == evs;
  }

  lemma NoLegsYet(legs: seq<Leg>)
    requires AllValued(legs)
    ensures Book(legs[..0]) == FLAT && Trades(legs[..0]) == [] && Sound(FLAT)
  {
  }

  lemma SameCost(a: Acct, b: Acct, sold: real)
    requires a.qty == b.qty > 0.0 && a.cost == b.cost
    ensures CostOf(a, sold) == CostOf(b, sold) && forall leg :: SoldOf(a, leg) == SoldOf(b, leg)
  {
  }

  lemma OneMoreLeg(legs: seq<Leg>, i: nat)
    requires AllValued(legs) && i < |legs|
    ensures Book(legs[..i + 1]) == Fill(Book(legs[..i]), legs[i])
    ensures Trades(legs[..i + 1]) == Trades(legs[..i]) + TradeAt(Book(legs[..i]), legs[i])
  {
    hide Fill, TradeAt;
    var now := legs[..i + 1];
    assert now[..|now| - 1] == legs[..i];
  }

  // ----- what a trade says

  /** A sale closes as much as is held, at its average cost and for its share of what the
      leg brought in; the multiple is their quotient. */
  lemma TradeIs(a: Acct, leg: Leg)
    requires Sound(a) && leg.Valued()
    ensures |TradeAt(a, leg)| == if leg.side == Sell && a.qty > 0.0 then 1 else 0
    ensures leg.side == Sell && a.qty > 0.0 ==>
              var t := TradeAt(a, leg)[0];
              && t.wallet == leg.wallet && t.token == leg.token && t.qty == (if leg.qty <= a.qty then leg.qty else a.qty)
              && t.cost * a.qty == a.cost * t.qty && t.proceeds * leg.qty == leg.value * t.qty
              && t.realized == t.proceeds - t.cost && (if t.cost > 0.0 then t.multiple * t.cost == t.proceeds else t.multiple == 0.0)
              && t.entry == (if a.entry.Some? && a.entry.value != 0 then a.entry.value else leg.block) && t.exit == leg.block
  {
    if leg.side == Sell && a.qty > 0.0 {
      var sold := SoldOf(a, leg);
      CostShare(a, sold);
      ProceedsShare(leg, sold);
      if CostOf(a, sold) > 0.0 { Ratio(Proceeds(leg, sold), CostOf(a, sold)); }
      hide CostOf, Proceeds;
    }
  }

  lemma CostShare(a: Acct, sold: real)
    requires a.qty > 0.0
    ensures CostOf(a, sold) * a.qty == a.cost * sold
  {
    Ratio(a.cost, a.qty);
    assert a.cost / a.qty * sold * a.qty == a.cost / a.qty * a.qty * sold;
  }

  lemma ProceedsShare(leg: Leg, sold: real)
    requires leg.Valued()
    ensures Proceeds(leg, sold) * leg.qty == leg.value * sold
  {
    Ratio(sold, leg.qty);
    assert leg.value * (sold / leg.qty) * leg.qty == leg.value * (sold / leg.qty * leg.qty);
  }

  lemma Ratio(x: real, y: real)
    requires y > 0.0
    ensures x / y * y == x
  {
  }

  /** Leg j opened the position: flat before it, a buy, and never flat since. */
  ghost predicate Opened(legs: seq<Leg>, j: nat)
    requires AllValued(legs)
  {
    && j < |legs| && legs[j].side == Buy && Book(legs[..j]).qty == 0.0
    && forall k :: j < k <= |legs| ==> Book(legs[..k]).qty > 0.0
  }

  lemma OpenedMore(legs: seq<Leg>, leg: Leg, j: nat)
    requires AllValued(legs) && leg.Valued() && Opened(legs, j) && Book(legs + [leg]).qty > 0.0
    ensures Opened(legs + [leg], j)
  {
    hide Book;
    var more := legs + [leg];
    assert more[..j] == legs[..j];
    forall k | j < k <= |more| ensures Book(more[..k]).qty > 0.0 {
      if k <= |legs| { assert more[..k] == legs[..k]; } else { assert more[..k] == more; }
    }
  }

  lemma OpenedNow(legs: seq<Leg>, leg: Leg)
    requires AllValued(legs) && leg.Valued() && Book(legs).qty == 0.0 && Book(legs + [leg]).qty > 0.0
    ensures leg.side == Buy && Opened(legs + [leg], |legs|) && Book(legs + [leg]).entry == Some(leg.block)
  {
    BookIsSound(legs);
    BookStep(legs, leg);
    var more := legs + [leg];
    assert more[..|legs|] == legs && more[..|more|] == more;
    hide Book, CostOf, Proceeds;
  }

  lemma EntryKept(a: Acct, leg: Leg)
    requires Sound(a) && leg.Valued() && a.qty > 0.0 && Fill(a, leg).qty > 0.0
    ensures Fill(a, leg).entry == a.entry
  {
    hide CostOf, Proceeds;
  }

  /** The account was opened by leg j and remembers its block. */
  ghost predicate OpenedAt(legs: seq<Leg>, j: nat)
    requires AllValued(legs)
  {
    Opened(legs, j) && Book(legs).entry == Some(legs[j].block)
  }

  lemma OpenedAtMore(legs: seq<Leg>, leg: Leg, j: nat)
    requires AllValued(legs) && leg.Valued() && OpenedAt(legs, j) && Book(legs).qty > 0.0
    requires AllValued(legs + [leg]) && Book(legs + [leg]).qty > 0.0
    ensures OpenedAt(legs + [leg], j)
  {
    BookIsSound(legs);
    BookStep(legs, leg);
    OpenedMore(legs, leg, j);
    hide Book, Fill;
    EntryKept(Book(legs), leg);
    assert (legs + [leg])[j] == legs[j];
  }

  /** The entry block is that of the buy that opened the position. */
  lemma {:induction false} EntryIsOpening(legs: seq<Leg>)
    requires AllValued(legs) && Book(legs).qty > 0.0
    ensures exists j: nat :: OpenedAt(legs, j)
  {
    if |legs| > 0 {
      var before, leg := legs[..|legs| - 1], legs[|legs| - 1];
      assert legs == before + [leg];
      BookIsSound(before);
      HeldIsNotNegative(Book(before));
      if Book(before).qty > 0.0 {
        EntryIsOpening(before);
        hide Book, OpenedAt;
        var j: nat :| OpenedAt(before, j);
        OpenedAtMore(before, leg, j);
      } else {
        hide Book, Opened;
        OpenedNow(before, leg);
        assert OpenedAt(legs, |before|);
      }
    }
  }

  // ----- profit of a list of trades

  function RealizedFor(trades: seq<Trade>, k: Key): real {
    if |trades| == 0 then 0.0
    else
      var t := trades[|trades| - 1];
      RealizedFor(trades[..|trades| - 1], k) + (if (t.wallet, t.token) == k then t.realized else 0.0)
  }

  lemma {:induction false} RealizedForConcat(a: seq<Trade>, b: seq<Trade>, k: Key)
    ensures RealizedFor(a + b, k) == RealizedFor(a, k) + RealizedFor(b, k)
  {
    if |b| == 0 {
      assert a + b == a;
    } else {
      assert (a + b)[..|a + b| - 1] == a + b[..|b| - 1];
      RealizedForConcat(a, b[..|b| - 1], k);
    }
  }

  predicate AllOf(legs: seq<Leg>, k: Key) {
    forall i :: 0 <= i < |legs| ==> KeyOf(legs[i]) == k
  }

  /** The trades of one key add up to the account's realised profit; no other key is paid. */
  lemma {:induction false} TradesAddUp(legs: seq<Leg>, k: Key, j: Key)
    requires AllValued(legs) && AllOf(legs, k)
    ensures RealizedFor(Trades(legs), j) == if j == k then Book(legs).realized else 0.0
  {
    if |legs| > 0 {
      var before, leg := legs[..|legs| - 1], legs[|legs| - 1];
      TradesAddUp(before, k, j);
      var now := TradeAt(Book(before), leg);
      RealizedForConcat(Trades(before), now, j);
      assert KeyOf(leg) == k;
      hide Trades, Book, CostOf, Proceeds, SoldOf;
      if |now| > 0 {
        assert now[..|now| - 1] == [];
        assert RealizedFor([], j) == 0.0;
      } else {
        assert RealizedFor(now, j) == 0.0;
      }
    }
  }

  // ----- grouping and ordering

  /** `evs.sort(key=lambda x: (x["block"], x["log_index"]))`: the sort is stable, so it
      is a sort by log index followed by one by block. */
  function Chronological(legs: seq<Leg>): seq<Leg> {
    SortBy(SortBy(legs, (l: Leg) => l.logIndex as real), (l: Leg) => l.block as real)
  }

  predicate Before(a: Leg, b: Leg) {
    a.block < b.block || (a.block == b.block && a.logIndex <= b.logIndex)
  }

  /** The legs in (block, log index) order, none lost and none added. */
  lemma ChronologicalIsOrdered(legs: seq<Leg>)
    ensures forall i, j :: 0 <= i < j < |Chronological(legs)| ==> Before(Chronological(legs)[i], Chronological(legs)[j])
    ensures multiset(Chronological(legs)) == multiset(legs)
    ensures forall leg :: leg in Chronological(legs) <==> leg in legs
  {
    var byLog, byBlock := (l: Leg) => l.logIndex as real, (l: Leg) => l.block as real;
    hide SortBy;
    SortByIsSort(legs, byLog);
    SortByIsSort(SortBy(legs, byLog), byBlock);
    SortByIsStable(SortBy(legs, byLog), byBlock, byLog);
    var r := Chronological(legs);
    forall i, j | 0 <= i < j < |r| ensures Before(r[i], r[j]) {
      assert byBlock(r[i]) <= byBlock(r[j]);
      assert byBlock(r[i]) == byBlock(r[j]) ==> byLog(r[i]) <= byLog(r[j]);
    }
  }

  /** The legs of one key in the order they are booked. */
  function GroupOf(legs: seq<Leg>, k: Key): seq<Leg> {
    Chronological(WithKey(legs, KeyOf, k))
  }

  lemma GroupIsOfKey(legs: seq<Leg>, k: Key)
    requires AllValued(legs)
    ensures AllValued(GroupOf(legs, k)) && AllOf(GroupOf(legs, k), k)
  {
    InWithKey(legs, KeyOf, k);
    ChronologicalIsOrdered(WithKey(legs, KeyOf, k));
    hide WithKey, Chronological;
    var g := GroupOf(legs, k);
    forall i | 0 <= i < |g| ensures g[i].Valued() && KeyOf(g[i]) == k { assert g[i] in g; }
  }

  ghost function TradesOf(legs: seq<Leg>, ks: seq<Key>): seq<Trade>
    requires AllValued(legs)
  {
    if |ks| == 0 then []
    else
      GroupIsOfKey(legs, ks[|ks| - 1]);
      TradesOf(legs, ks[..|ks| - 1]) + Trades(GroupOf(legs, ks[|ks| - 1]))
  }

  /** `closed_trades`: per key in order of first appearance, its trades in time order. */
  method ClosedTrades(legs: seq<Leg>) returns (out: seq<Trade>)
    requires AllValued(legs)
    ensures out == TradesOf(legs, FirstSeen(KeysOf(legs, KeyOf)))
  {
    var keys, groups := Grouped(legs, KeyOf);
    hide WithKey, Chronological, FirstSeen, Trades;
    out := [];
    for i := 0 to |keys|
      invariant out == TradesOf(legs, keys[..i])
    {
      GroupIsOfKey(legs, keys[i]);
      var trades := CloseGroup(Chronological(groups[keys[i]]));
      out := out + trades;
      assert keys[..i + 1][..i] == keys[..i];
    }
    assert keys[..|keys|] == keys;
  }

  /** The realised profit reported for a key is that of the average-cost account of
      its legs in time order. */
  lemma ClosedProfit(legs: seq<Leg>, k: Key)
    requires AllValued(legs)
    ensures AllValued(GroupOf(legs, k))
    ensures RealizedFor(TradesOf(legs, FirstSeen(KeysOf(legs, KeyOf))), k)
         == if k in KeysOf(legs, KeyOf) then Book(GroupOf(legs, k)).realized else 0.0
  {
    GroupIsOfKey(legs, k);
    FirstSeenKeys(KeysOf(legs, KeyOf));
    ProfitOverKeys(legs, FirstSeen(KeysOf(legs, KeyOf)), k);
  }

  lemma {:induction false} ProfitOverKeys(legs: seq<Leg>, ks: seq<Key>, k: Key)
    requires AllValued(legs) && Distinct(ks)
    ensures AllValued(GroupOf(legs, k))
    ensures RealizedFor(TradesOf(legs, ks), k) == if k in ks then Book(GroupOf(legs, k)).realized else 0.0
  {
    hide Book, Trades, GroupOf;
    GroupIsOfKey(legs, k);
    if |ks| > 0 {
      var init, last := ks[..|ks| - 1], ks[|ks| - 1];
      ProfitOverKeys(legs, init, k);
      GroupIsOfKey(legs, last);
      TradesAddUp(GroupOf(legs, last), last, k);
      RealizedForConcat(TradesOf(legs, init), Trades(GroupOf(legs, last)), k);
      assert ks == init + [last];
    }
  }
}
