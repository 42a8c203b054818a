/** `total_pnl_boundaries` of arc-intel/indexer/validate.py: one pass over the legs,
    one snapshot per boundary, against `total_pnl` run afresh at each block. */
module PnlBoundaries {
  import opened Reals
  import opened Pnl
  import opened PnlStream
  import opened PnlTotal
  import Lists

  // ----- the pass

  /** The legs `total_pnl` reads at block b. */
  function Until(legs: seq<Leg>, b: int): (r: seq<Leg>)
    ensures AllValued(legs) ==> AllValued(r)
    ensures forall i :: 0 <= i < |r| ==> r[i] in legs
  {
    if |legs| == 0 then []
    else Until(legs[..|legs| - 1], b) + (if legs[|legs| - 1].block <= b then [legs[|legs| - 1]] else [])
  }

  predicate Ordered(legs: seq<Leg>) {
    forall i, j :: 0 <= i < j < |legs| ==> legs[i].block <= legs[j].block
  }

  /** b lies between leg i and the legs before it. */
  predicate Separates(legs: seq<Leg>, i: nat, b: int)
    requires i <= |legs|
  {
    (forall k :: 0 <= k < i ==> legs[k].block <= b) && (forall k :: i <= k < |legs| ==> legs[k].block > b)
  }

  lemma UntilMore(legs: seq<Leg>, leg: Leg, b: int)
    ensures Until(legs + [leg], b) == if leg.block <= b then Until(legs, b) + [leg] else Until(legs, b)
  {
    hide AllValued;
    assert (legs + [leg])[..|legs|] == legs;
  }

  lemma {:induction false} UntilAll(legs: seq<Leg>, b: int)
    requires forall k :: 0 <= k < |legs| ==> legs[k].block <= b
    ensures Until(legs, b) == legs
  {
    hide AllValued, Until;
    if |legs| == 0 {
      NoLegs(b);
    } else {
      var init, last := legs[..|legs| - 1], legs[|legs| - 1];
      assert legs == init + [last];
      UntilAll(init, b);
      UntilMore(init, last, b);
    }
  }

  lemma NoLegs(b: int)
    ensures Until([], b) == []
  {
  }

  lemma {:induction false} UntilSeparated(legs: seq<Leg>, i: nat, b: int)
    requires i <= |legs| && Separates(legs, i, b)
    ensures Until(legs, b) == legs[..i]
  {
    hide AllValued, Until;
    if i == |legs| {
      UntilAll(legs, b);
      assert legs[..i] == legs;
    } else {
      var init, last := legs[..|legs| - 1], legs[|legs| - 1];
      assert legs == init + [last] && init[..i] == legs[..i];
      UntilMore(init, last, b);
      UntilSeparated(init, i, b);
    }
  }

  ghost predicate SnapshotOf(tot: map<string, real>, s: Totals) {
    && (forall w :: w in tot <==> w in s.cash || Nonzero(s, s.qty.Keys, w))
    && (forall w :: Term(tot, w) == Snap(s, w))
  }

  /** The boundaries before position idx have their snapshots, no others do. */
  ghost predicate Taken(out: map<int, map<string, real>>, legs: seq<Leg>, bounds: seq<int>, idx: nat)
    requires AllValued(legs) && idx <= |bounds|
  {
    && (forall b :: b in out <==> b in bounds[..idx])
    && (forall b :: b in out ==> SnapshotOf(out[b], After(Until(legs, b))))
  }

  lemma TakeOne(out: map<int, map<string, real>>, legs: seq<Leg>, bounds: seq<int>, idx: nat, i: nat, tot: map<string, real>)
    requires AllValued(legs) && idx < |bounds| && i <= |legs| && Taken(out, legs, bounds, idx)
    requires Separates(legs, i, bounds[idx]) && SnapshotOf(tot, After(legs[..i]))
    ensures Taken(out[bounds[idx] := tot], legs, bounds, idx + 1)
  {
    hide SnapshotOf, After, Separates;
    UntilSeparated(legs, i, bounds[idx]);
    assert bounds[..idx + 1] == bounds[..idx] + [bounds[idx]];
  }

  /** Every boundary from idx on is at or after every leg before i. */
  predicate Ahead(legs: seq<Leg>, bounds: seq<int>, idx: nat, i: nat)
    requires i <= |legs|
  {
    forall j, k :: idx <= j < |bounds| && 0 <= k < i ==> legs[k].block <= bounds[j]
  }

  lemma SeparatesHere(legs: seq<Leg>, bounds: seq<int>, idx: nat, i: nat)
    requires i <= |legs| && idx < |bounds| && Ordered(legs) && Ahead(legs, bounds, idx, i)
    requires i < |legs| ==> legs[i].block > bounds[idx]
    ensures Separates(legs, i, bounds[idx])
  {
  }

  lemma AheadStep(legs: seq<Leg>, bounds: seq<int>, idx: nat, i: nat)
    requires i < |legs| && Ahead(legs, bounds, idx, i) && Lists.Ascending(bounds)
    requires idx < |bounds| ==> legs[i].block <= bounds[idx]
    ensures Ahead(legs, bounds, idx, i + 1)
  {
  }

  method TotalPnlBoundaries(legs: seq<Leg>, boundaries: seq<int>) returns (out: map<int, map<string, real>>)
    requires AllValued(legs) && Ordered(legs)
    ensures forall b :: b in out <==> b in boundaries
    ensures forall b :: b in out ==> SnapshotOf(out[b], After(Until(legs, b)))
  {
    hide Taken, Ahead, Separates, Ordered, SnapshotOf, Lists.Sorted, Booked, Shifted;
    var blocks := set b | b in boundaries;
    var bounds := Lists.Sorted(blocks);
    Lists.SortedIsAscending(blocks);
    out := map[];
    var s, idx := NOTHING, 0;
    NoneTaken(legs, bounds);
    for i := 0 to |legs|
      invariant idx <= |bounds| && s == After(legs[..i])
      invariant Taken(out, legs, bounds, idx) && Ahead(legs, bounds, idx, i)
    {
      while idx < |bounds| && legs[i].block > bounds[idx]
        invariant idx <= |bounds| && Taken(out, legs, bounds, idx) && Ahead(legs, bounds, idx, i)
      {
        out, idx := TakeNext(legs, bounds, idx, i, s, out);
      }
      AheadStep(legs, bounds, idx, i);
      AfterStep(legs, i);
      s := BookLeg(s, legs[i]);
    }
    assert legs[..|legs|] == legs;
    while idx < |bounds|
      invariant idx <= |bounds| && Taken(out, legs, bounds, idx) && Ahead(legs, bounds, idx, |legs|)
    {
      out, idx := TakeNext(legs, bounds, idx, |legs|, s, out);
    }
    AllTaken(out, legs, boundaries, bounds);
  }

  lemma NoneTaken(legs: seq<Leg>, bounds: seq<int>)
    requires AllValued(legs)
    ensures Taken(map[], legs, bounds, 0) && Ahead(legs, bounds, 0, 0)
  {
  }

  lemma AllTaken(out: map<int, map<string, real>>, legs: seq<Leg>, boundaries: seq<int>, bounds: seq<int>)
    requires AllValued(legs) && Taken(out, legs, bounds, |bounds|) && forall b :: b in bounds <==> b in boundaries
    ensures forall b :: b in out <==> b in boundaries
    ensures forall b :: b in out ==> SnapshotOf(out[b], After(Until(legs, b)))
  {
    hide SnapshotOf, After;
    assert bounds[..|bounds|] == bounds;
  }

  lemma AfterStep(legs: seq<Leg>, i: nat)
    requires AllValued(legs) && i < |legs|
    ensures After(legs[..i + 1]) == Booked(After(legs[..i]), legs[i])
  {
    hide Booked;
    assert legs[..i + 1][..i] == legs[..i];
  }

  /** `out[bounds[idx]] = _snapshot(...)`, `idx += 1`. */
  method TakeNext(ghost legs: seq<Leg>, bounds: seq<int>, idx: nat, ghost i: nat, s: Totals, out: map<int, map<string, real>>)
    returns (out': map<int, map<string, real>>, idx': nat)
    requires AllValued(legs) && i <= |legs| && idx < |bounds| && s == After(legs[..i])
    requires Taken(out, legs, bounds, idx) && Ahead(legs, bounds, idx, i) && Ordered(legs)
    requires i < |legs| ==> legs[i].block > bounds[idx]
    ensures idx' == idx + 1 && Taken(out', legs, bounds, idx') && Ahead(legs, bounds, idx', i)
  {
    hide Taken, After, Snap, Nonzero, Separates, Ordered;
    SeparatesHere(legs, bounds, idx, i);
    var tot := Snapshot(s);
    TakeOne(out, legs, bounds, idx, i, tot);
    out', idx' := out[bounds[idx] := tot], idx + 1;
  }

  /** The body of the leg loop: cash, quantity and price. */
  method BookLeg(s: Totals, leg: Leg) returns (s': Totals)
    requires leg.Valued()
    ensures s' == Booked(s, leg)
  {
    hide Leg.Price;
    var w, p := leg.wallet, leg.pool;
    var k := (w, p);
    var cash, qty, price := s.cash, s.qty, s.price;
    if leg.side == Buy {
      cash := cash[w := Term(cash, w) - leg.value];
      qty := qty[k := Term(qty, k) + leg.qty];
    } else {
      cash := cash[w := Term(cash, w) + leg.value];
      qty := qty[k := Term(qty, k) - leg.qty];
    }
    price := price[p := leg.Price()];
    if -DUST < Term(qty, k) < DUST {
      qty := qty - {k};
      assert qty == s.qty - {k};
    }
    s' := Totals(cash, qty, price);
  }

  // ----- against total_pnl

  lemma WalletsStep(legs: seq<Leg>, leg: Leg)
    ensures WalletsIn(legs + [leg]) == WalletsIn(legs) + {leg.wallet}
  {
    var more := legs + [leg];
    assert more[|legs|] == leg;
    forall i | 0 <= i < |legs| ensures legs[i].wallet in WalletsIn(more) { assert more[i] == legs[i]; }
  }

  ghost predicate CashExact(s: Totals, legs: seq<Leg>) {
    s.cash.Keys == WalletsIn(legs) && forall w :: Term(s.cash, w) == Cash(OfWallet(legs, w))
  }

  ghost predicate PriceExact(s: Totals, legs: seq<Leg>)
    requires AllValued(legs)
  {
    forall p :: Term(s.price, p) == LastPrice(legs, p)
  }

  /** Quantities are the net ones, kept only for wallets and pools that traded. */
  ghost predicate QtyExact(s: Totals, legs: seq<Leg>) {
    && (forall k: Key :: Term(s.qty, k) == Net(Traded(legs, k.1, k.0)))
    && (forall k: Key :: k in s.qty ==> k.0 in WalletsIn(legs) && k.1 in PoolsIn(legs))
  }

  lemma CashExactStep(s: Totals, legs: seq<Leg>, leg: Leg)
    requires leg.Valued() && CashExact(s, legs)
    ensures CashExact(Booked(s, leg), legs + [leg])
  {
    WalletsStep(legs, leg);
    hide WalletsIn, OfWallet, Cash, Shifted, Leg.Price;
    forall w ensures Term(Booked(s, leg).cash, w) == Cash(OfWallet(legs + [leg], w)) {
      OneMoreOfWallet(legs, leg, w);
      CashStep(OfWallet(legs, w), leg);
      assert OfWallet(legs, w) + [] == OfWallet(legs, w);
    }
  }

  lemma PriceStep(legs: seq<Leg>, leg: Leg, p: string)
    requires AllValued(legs) && leg.Valued()
    ensures AllValued(legs + [leg])
    ensures LastPrice(legs + [leg], p) == if p == leg.pool then leg.Price() else LastPrice(legs, p)
  {
    hide OfPool, Leg.Price;
    OneMoreOfPool(legs, leg, p);
    if p != leg.pool {
      assert OfPool(legs + [leg], p) == OfPool(legs, p);
    }
  }

  lemma PriceExactStep(s: Totals, legs: seq<Leg>, leg: Leg)
    requires AllValued(legs) && leg.Valued() && PriceExact(s, legs)
    ensures AllValued(legs + [leg]) && PriceExact(Booked(s, leg), legs + [leg])
  {
    hide LastPrice, Shifted, Leg.Price;
    forall p ensures Term(Booked(s, leg).price, p) == LastPrice(legs + [leg], p) {
      PriceStep(legs, leg, p);
    }
  }

  lemma QtyExactStep(s: Totals, legs: seq<Leg>, leg: Leg)
    requires leg.Valued() && QtyExact(s, legs)
    requires var q := Net(Traded(legs + [leg], leg.pool, leg.wallet)); -DUST < q < DUST ==> q == 0.0
    ensures QtyExact(Booked(s, leg), legs + [leg])
  {
    WalletsStep(legs, leg);
    PoolsStep(legs, leg);
    TradedStep(legs, leg);
    CashStep(Traded(legs, leg.pool, leg.wallet), leg);
    hide WalletsIn, PoolsIn, Traded, Net, Leg.Price;
    var at := (leg.wallet, leg.pool);
    forall k: Key ensures Term(Booked(s, leg).qty, k) == Net(Traded(legs + [leg], k.1, k.0)) {
      if k.0 != leg.wallet || k.1 != leg.pool {
        CashElsewhere(legs, leg, k.1, k.0);
      } else {
        assert k == at;
      }
    }
  }

  // ----- quantities on a grid

  lemma {:induction false} NetIsMultiple(legs: seq<Leg>, g: real)
    requires Grainy(legs, g)
    ensures Multiple(Net(legs), g)
  {
    if |legs| == 0 {
      assert 0.0 == Grains(0, g);
    } else {
      NetIsMultiple(legs[..|legs| - 1], g);
      MultiplesAdd(Net(legs[..|legs| - 1]), legs[|legs| - 1].qty, g);
      hide Multiple;
    }
  }

  lemma TradedIsGrainy(legs: seq<Leg>, p: string, w: string, g: real)
    requires Grainy(legs, g)
    ensures Grainy(Traded(legs, p, w), g)
  {
    hide Multiple, OfPool, OfWallet;
    var ps := OfPool(legs, p);
    forall i | 0 <= i < |OfWallet(ps, w)| ensures Multiple(OfWallet(ps, w)[i].qty, g) {
      assert OfWallet(ps, w)[i] in ps;
    }
  }

  /** With quantities in whole grains of at least 1e-18, the streamed totals are the
      exact net ones: dropping small quantities drops only zeros. */
  lemma {:induction false} AfterIsExact(legs: seq<Leg>, g: real)
    requires AllValued(legs) && Grainy(legs, g) && g >= DUST
    ensures QtyExact(After(legs), legs)
  {
    hide QtyExact, Multiple;
    if |legs| == 0 {
      NothingIsExact();
    } else {
      var before, leg := legs[..|legs| - 1], legs[|legs| - 1];
      assert legs == before + [leg];
      AfterIsExact(before, g);
      hide Booked, Traded;
      TradedIsGrainy(legs, leg.pool, leg.wallet, g);
      NetIsMultiple(Traded(legs, leg.pool, leg.wallet), g);
      var q := Net(Traded(legs, leg.pool, leg.wallet));
      if -DUST < q < DUST { SmallMultipleIsZero(q, g); }
      QtyExactStep(After(before), before, leg);
    }
  }

  lemma NothingIsExact()
    ensures QtyExact(NOTHING, []) && CashExact(NOTHING, []) && PriceExact(NOTHING, [])
  {
    forall k: Key ensures Traded([], k.1, k.0) == [] {}
  }

  lemma {:induction false} CashAndPriceAreExact(legs: seq<Leg>)
    requires AllValued(legs)
    ensures CashExact(After(legs), legs) && PriceExact(After(legs), legs)
  {
    hide CashExact, PriceExact;
    if |legs| == 0 {
      NothingIsExact();
    } else {
      var before, leg := legs[..|legs| - 1], legs[|legs| - 1];
      assert legs == before + [leg];
      CashAndPriceAreExact(before);
      hide Booked;
      CashExactStep(After(before), before, leg);
      PriceExactStep(After(before), before, leg);
    }
  }

  /** Exact totals give each wallet its worth. */
  lemma SnapIsWorth(s: Totals, legs: seq<Leg>, w: string)
    requires AllValued(legs) && CashExact(s, legs) && PriceExact(s, legs) && QtyExact(s, legs)
    ensures Snap(s, w) == Worth(legs, w)
  {
    hide WalletsIn, PoolsIn, Traded, LastPrice, Cash, Net, Sum, OfWallet;
    var held, ps := PoolsOf(s.qty.Keys, w), PoolsIn(legs);
    forall p | p in held ensures p in ps && Term(ValueByPool(s, w), p) == Term(NetByPool(legs, w), p) {
      var k :| k in s.qty && k.0 == w && k.1 == p;
      assert k == (w, p);
    }
    forall p | p in ps - held ensures Term(NetByPool(legs, w), p) == 0.0 {
      assert (w, p) !in s.qty;
      var k: Key := (w, p);
      assert Term(s.qty, k) == Net(Traded(legs, k.1, k.0));
    }
    SumAgrees(held, ValueByPool(s, w), NetByPool(legs, w));
    SumIgnoresZeros(held, ps - held, NetByPool(legs, w));
    assert held + (ps - held) == ps;
  }

  /** The main law: with token quantities in whole units of at most 18 decimals, the
      snapshot at a boundary is what `total_pnl` computes from scratch at that block. */
  lemma BoundaryIsTotal(legs: seq<Leg>, b: int, tot: map<string, real>, g: real)
    requires AllValued(legs) && Grainy(legs, g) && g >= DUST && SnapshotOf(tot, After(Until(legs, b)))
    ensures tot == TotalPnl(Until(legs, b))
  {
    hide Multiple, Until, Snap, Worth, Nonzero, WalletsIn;
    var done := Until(legs, b);
    forall i | 0 <= i < |done| ensures Multiple(done[i].qty, g) { assert done[i] in legs; }
    AfterIsExact(done, g);
    CashAndPriceAreExact(done);
    forall w ensures w in tot <==> w in WalletsIn(done) {
      if Nonzero(After(done), After(done).qty.Keys, w) { NonzeroIsWallet(After(done), done, w); }
    }
    forall w ensures Term(tot, w) == Worth(done, w) { SnapIsWorth(After(done), done, w); }
  }

  lemma NonzeroIsWallet(s: Totals, legs: seq<Leg>, w: string)
    requires QtyExact(s, legs) && Nonzero(s, s.qty.Keys, w)
    ensures w in WalletsIn(legs)
  {
    hide WalletsIn, PoolsIn, Traded, Net;
    var p :| (w, p) in s.qty && s.qty[(w, p)] != 0.0;
    var k: Key := (w, p);
    assert k in s.qty;
  }

  // ----- when the dust test is exact

  function OneBuy(g: real): Leg {
    Leg("w", "t", "p", 0, 0, Buy, g, 1.0)
  }

  /** A buy of less than 1e-18 is dropped at once: the wallet is left with its cost. */
  lemma TinyBuyIsLost(g: real)
    requires 0.0 < g < DUST
    ensures AllValued([OneBuy(g)]) && Grainy([OneBuy(g)], g)
    ensures Snap(After([OneBuy(g)]), "w") == -1.0 && Worth([OneBuy(g)], "w") == 0.0
  {
    hide Worth, Snap, After, Times, Grains;
    OneGrain(g);
    TinyBuyIsDropped(g);
    WorthOfOne(OneBuy(g));
    SnapOfCash(After([OneBuy(g)]), "w");
    Reciprocal(g);
  }

  lemma OneGrain(g: real)
    ensures Grainy([OneBuy(g)], g)
  {
    assert g == Grains(1, g);
  }

  lemma Reciprocal(g: real)
    requires g > 0.0
    ensures Times(g, 1.0 / g) == 1.0
  {
  }

  lemma TinyBuyIsDropped(g: real)
    requires 0.0 < g < DUST
    ensures AllValued([OneBuy(g)])
    ensures After([OneBuy(g)]).qty == map[] && Term(After([OneBuy(g)]).cash, "w") == -1.0
  {
    hide Leg.Price;
    var leg := OneBuy(g);
    assert [leg][..0] == [];
    assert After([leg]) == Booked(NOTHING, leg);
  }

  lemma SnapOfCash(s: Totals, w: string)
    requires s.qty == map[]
    ensures Snap(s, w) == Term(s.cash, w)
  {
    assert PoolsOf(s.qty.Keys, w) == {};
    SumOfNone(ValueByPool(s, w));
  }

  lemma WorthOfOne(leg: Leg)
    requires leg.Valued() && leg.side == Buy
    ensures AllValued([leg]) && Worth([leg], leg.wallet) == Times(leg.qty, leg.Price()) - leg.value
  {
    hide OfPool, OfWallet, PoolsIn, Leg.Price, Sum, Cash, Net, Times, LastPrice;
    var w, p := leg.wallet, leg.pool;
    FlowsOfOne(leg);
    SumWithout({p}, NetByPool([leg], w), p);
    SumOfNone(NetByPool([leg], w));
    assert {p} - {p} == {};
  }

  lemma SumOfNone(m: map<string, real>)
    ensures Sum({}, m) == 0.0
  {
  }

  lemma FlowsOfOne(leg: Leg)
    requires leg.Valued() && leg.side == Buy
    ensures PoolsIn([leg]) == {leg.pool} && LastPrice([leg], leg.pool) == leg.Price()
    ensures Cash(OfWallet([leg], leg.wallet)) == -leg.value && Net(Traded([leg], leg.pool, leg.wallet)) == leg.qty
  {
    NothingIn(leg.pool, leg.wallet);
    hide *;
    PoolsStep([], leg);
    PriceStep([], leg, leg.pool);
    OneMoreOfWallet([], leg, leg.wallet);
    TradedStep([], leg);
    CashStep([], leg);
    assert [] + [leg] == [leg];
  }

  lemma NothingIn(p: string, w: string)
    ensures PoolsIn([]) == {} && OfWallet([], w) == [] && Traded([], p, w) == [] && Cash([]) == 0.0 && Net([]) == 0.0
    ensures AllValued([])
  {
  }

  /** The pass agrees with `total_pnl` on every table of whole grains g exactly when
      g is at least 1e-18, that is for tokens of at most 18 decimals. */
  lemma ExactIff(g: real)
    requires g > 0.0
    ensures g >= 0.000000000000000001 <==>
            forall legs, w :: AllValued(legs) && Grainy(legs, g) ==> Snap(After(legs), w) == Worth(legs, w)
  {
    hide AllValued, Grainy, Snap, After, Worth;
    if g >= DUST {
      forall legs, w | AllValued(legs) && Grainy(legs, g) ensures Snap(After(legs), w) == Worth(legs, w) {
        AfterIsExact(legs, g);
        CashAndPriceAreExact(legs);
        SnapIsWorth(After(legs), legs, w);
      }
    } else {
      TinyBuyIsLost(g);
    }
  }
}
