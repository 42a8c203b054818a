/** `total_pnl` and `_snapshot` of arc-intel/indexer/validate.py: cash flow plus open quantity at the last price. */
module PnlTotal {
  import opened Options
  import opened Reals
  import opened Pnl
  import opened PnlStream

  // ----- total_pnl

  function WalletsIn(legs: seq<Leg>): set<string> {
    set i | 0 <= i < |legs| :: legs[i].wallet
  }

  function LastPrice(legs: seq<Leg>, p: string): real
    requires AllValued(legs)
  {
    if PriceOf(legs, p) == None then 0.0 else PriceOf(legs, p).value
  }

  function CashByPool(legs: seq<Leg>, w: string): map<string, real> {
    map p | p in PoolsIn(legs) :: Cash(Traded(legs, p, w))
  }

  function NetByPool(legs: seq<Leg>, w: string): map<string, real>
    requires AllValued(legs)
  {
    map p | p in PoolsIn(legs) :: Times(Net(Traded(legs, p, w)), LastPrice(legs, p))
  }

  /** Net cash of the wallet plus its net quantity in every pool at the pool's last price. */
  ghost function Worth(legs: seq<Leg>, w: string): real
    requires AllValued(legs)
  {
    Cash(OfWallet(legs, w)) + Sum(PoolsIn(legs), NetByPool(legs, w))
  }

  /** `total_pnl` over the legs of a table. */
  ghost function TotalPnl(legs: seq<Leg>): map<string, real>
    requires AllValued(legs)
  {
    map w | w in WalletsIn(legs) :: Worth(legs, w)
  }

  // ----- conservation over all pools

  lemma CashElsewhere(legs: seq<Leg>, leg: Leg, p: string, w: string)
    requires p != leg.pool || w != leg.wallet
    ensures Cash(Traded(legs + [leg], p, w)) == Cash(Traded(legs, p, w))
    ensures Net(Traded(legs + [leg], p, w)) == Net(Traded(legs, p, w))
  {
    OneMoreOfPool(legs, leg, p);
    OneMoreOfWallet(OfPool(legs, p), leg, w);
    hide OfPool, OfWallet, Cash, Net;
    if p != leg.pool {
      assert OfPool(legs + [leg], p) == OfPool(legs, p);
    } else {
      assert OfWallet(OfPool(legs, p) + [leg], w) == OfWallet(OfPool(legs, p), w);
    }
  }

  lemma TradedStep(legs: seq<Leg>, leg: Leg)
    ensures Traded(legs + [leg], leg.pool, leg.wallet) == Traded(legs, leg.pool, leg.wallet) + [leg]
  {
    OneMoreOfPool(legs, leg, leg.pool);
    OneMoreOfWallet(OfPool(legs, leg.pool), leg, leg.wallet);
  }

  /** The wallet's cash is the sum of its cash in every pool. */
  lemma {:induction false} CashIsByPool(legs: seq<Leg>, w: string)
    ensures Cash(OfWallet(legs, w)) == Sum(PoolsIn(legs), CashByPool(legs, w))
  {
    hide *;
    if |legs| == 0 {
      NoCash(w);
    } else {
      var before, leg := legs[..|legs| - 1], legs[|legs| - 1];
      assert legs == before + [leg];
      CashIsByPool(before, w);
      CashByPoolStep(before, leg, w);
    }
  }

  lemma NoCash(w: string)
    ensures Cash(OfWallet([], w)) == Sum(PoolsIn([]), CashByPool([], w))
  {
    assert PoolsIn([]) == {};
  }

  lemma CashByPoolStep(before: seq<Leg>, leg: Leg, w: string)
    ensures Sum(PoolsIn(before + [leg]), CashByPool(before + [leg], w))
         == Sum(PoolsIn(before), CashByPool(before, w)) + Cash(OfWallet(before + [leg], w)) - Cash(OfWallet(before, w))
  {
    hide OfWallet, OfPool, PoolsIn, Cash, Sum;
    var legs := before + [leg];
    PoolsStep(before, leg);
    forall q | q in PoolsIn(before) - {leg.pool} ensures Term(CashByPool(before, w), q) == Term(CashByPool(legs, w), q) {
      CashElsewhere(before, leg, q, w);
    }
    SumChange(PoolsIn(before), CashByPool(before, w), CashByPool(legs, w), leg.pool);
    CashOfLastPool(before, leg, w);
  }

  /** The leg's cash is added in its own pool and in the wallet alike. */
  lemma CashOfLastPool(before: seq<Leg>, leg: Leg, w: string)
    ensures Cash(OfWallet(before + [leg], w)) - Cash(OfWallet(before, w))
         == Cash(Traded(before + [leg], leg.pool, w)) - Cash(Traded(before, leg.pool, w))
    ensures leg.pool !in PoolsIn(before) ==> Cash(Traded(before, leg.pool, w)) == 0.0
  {
    OneMoreOfWallet(before, leg, w);
    NoLegsOutside(before, leg.pool);
    assert OfWallet([], w) == [] && Cash([]) == 0.0;
    hide OfWallet, OfPool, PoolsIn, Cash;
    if w == leg.wallet {
      TradedStep(before, leg);
      CashStep(OfWallet(before, w), leg);
      CashStep(Traded(before, leg.pool, w), leg);
    } else {
      assert OfWallet(before + [leg], w) == OfWallet(before, w);
      CashElsewhere(before, leg, leg.pool, w);
    }
  }

  /** The wallet never oversells in the pool and leaves no dust there. */
  predicate Clean(legs: seq<Leg>, p: string, w: string)
    requires AllValued(legs)
  {
    Covered(Traded(legs, p, w)) && NoDust(Held(legs, p, w))
  }

  lemma PoolConserves(legs: seq<Leg>, p: string, w: string)
    requires AllValued(legs) && p in PoolsIn(legs) && Clean(legs, p, w)
    ensures Held(legs, p, w).realized + Marked(legs, p, w)
         == Cash(Traded(legs, p, w)) + Times(Net(Traded(legs, p, w)), LastPrice(legs, p))
  {
    MarkedAtLastPrice(legs, p, w);
    hide *;
    Conservation(Traded(legs, p, w), LastPrice(legs, p));
  }

  lemma MarkedAtLastPrice(legs: seq<Leg>, p: string, w: string)
    requires AllValued(legs) && p in PoolsIn(legs)
    ensures Held(legs, p, w) == Book(Traded(legs, p, w))
    ensures Marked(legs, p, w) == Unrealized(Book(Traded(legs, p, w)), LastPrice(legs, p))
  {
    hide PoolsIn, PriceOf, Traded, Book, Unrealized, LastPrice;
    PoolPrice(legs, p);
  }

  lemma PoolPrice(legs: seq<Leg>, p: string)
    requires AllValued(legs) && p in PoolsIn(legs)
    ensures PriceOf(legs, p) == Some(LastPrice(legs, p)) && LastPrice(legs, p) > 0.0
  {
    NoLegsOutside(legs, p);
    hide OfPool, Leg.Price, PoolsIn;
    PriceIsPositive(OfPool(legs, p)[|OfPool(legs, p)| - 1]);
  }

  lemma PriceIsPositive(leg: Leg)
    requires leg.Valued()
    ensures leg.Price() > 0.0
  {
  }

  /** Realised plus unrealised profit over all pools is cash plus open quantity at
      the last prices, for a wallet that is clean in every pool. */
  lemma PoolsConserve(legs: seq<Leg>, w: string)
    requires AllValued(legs) && forall p :: p in PoolsIn(legs) ==> Clean(legs, p, w)
    ensures Sum(PoolsIn(legs), RealizedByPool(legs, w)) + Sum(PoolsIn(legs), MarkedByPool(legs, w)) == Worth(legs, w)
  {
    hide Sum, PoolsIn, Held, Marked, Traded, LastPrice, Cash, Net, Clean, Times;
    var ps := PoolsIn(legs);
    var both := map p | p in ps :: Cash(Traded(legs, p, w)) + Times(Net(Traded(legs, p, w)), LastPrice(legs, p));
    forall p | p in ps
      ensures Term(RealizedByPool(legs, w), p) + Term(MarkedByPool(legs, w), p) == Term(both, p)
      ensures Term(CashByPool(legs, w), p) + Term(NetByPool(legs, w), p) == Term(both, p)
    {
      PoolConserves(legs, p, w);
    }
    SumAdds(ps, RealizedByPool(legs, w), MarkedByPool(legs, w), both);
    SumAdds(ps, CashByPool(legs, w), NetByPool(legs, w), both);
    CashIsByPool(legs, w);
  }

  /** Two tables with the same legs in every pool, in the same order there. */
  ghost predicate SamePools(legs: seq<Leg>, table: seq<Leg>) {
    forall p :: OfPool(legs, p) == OfPool(table, p)
  }

  lemma WorthByPool(legs: seq<Leg>, table: seq<Leg>, w: string)
    requires AllValued(legs) && AllValued(table) && SamePools(legs, table)
    ensures Worth(legs, w) == Worth(table, w)
  {
    hide Sum, PoolsIn, OfPool, OfWallet, Cash, Net, Traded, LastPrice, SamePools, AllValued;
    SamePoolsIn(legs, table);
    CashIsByPool(legs, w);
    CashIsByPool(table, w);
    forall p | p in PoolsIn(legs)
      ensures Term(CashByPool(legs, w), p) == Term(CashByPool(table, w), p)
      ensures Term(NetByPool(legs, w), p) == Term(NetByPool(table, w), p)
    {
      SameInPool(legs, table, p, w);
    }
    SumAgrees(PoolsIn(legs), CashByPool(legs, w), CashByPool(table, w));
    SumAgrees(PoolsIn(legs), NetByPool(legs, w), NetByPool(table, w));
  }

  lemma SamePoolsIn(legs: seq<Leg>, table: seq<Leg>)
    requires SamePools(legs, table)
    ensures PoolsIn(legs) == PoolsIn(table)
  {
    hide PoolsIn, OfPool;
    forall p ensures p in PoolsIn(legs) <==> p in PoolsIn(table) {
      NoLegsOutside(legs, p);
      NoLegsOutside(table, p);
    }
  }

  lemma SameInPool(legs: seq<Leg>, table: seq<Leg>, p: string, w: string)
    requires AllValued(legs) && AllValued(table) && SamePools(legs, table)
    ensures Traded(legs, p, w) == Traded(table, p, w) && LastPrice(legs, p) == LastPrice(table, p)
  {
    hide OfWallet, Leg.Price;
    assert OfPool(legs, p) == OfPool(table, p);
    hide OfPool;
  }

  lemma CleanByPool(legs: seq<Leg>, table: seq<Leg>, p: string, w: string)
    requires AllValued(legs) && AllValued(table) && SamePools(legs, table)
    ensures Clean(legs, p, w) <==> Clean(table, p, w)
  {
    hide Covered, Book;
    SameInPool(legs, table, p, w);
    hide Traded;
  }

  /** What the per-pool pass reports for a clean wallet is its worth in any table with
      the same legs in every pool. */
  lemma PoolwiseMatchesTotal(legs: seq<Leg>, table: seq<Leg>, agg: map<string, Agg>, w: string)
    requires AllValued(legs) && AllValued(table) && SamePools(legs, table) && Reported(legs, agg, w)
    requires forall p :: p in PoolsIn(table) ==> Clean(table, p, w)
    ensures AggOf(agg, w).realized + AggOf(agg, w).unrealized == Worth(table, w)
  {
    hide Sum, PoolsIn, SamePools, AllValued, Clean, Worth;
    SamePoolsIn(legs, table);
    forall p | p in PoolsIn(legs) ensures Clean(legs, p, w) { CleanByPool(legs, table, p, w); }
    PoolsConserve(legs, w);
    WorthByPool(legs, table, w);
  }

  // ----- total_pnl_boundaries

  type Key = (string, string)

  datatype Totals = Totals(cash: map<string, real>, qty: map<Key, real>, price: map<string, real>)

  const NOTHING := Totals(map[], map[], map[])

  /** Quantity after the leg; anything smaller than 1e-18 either way is dropped. */
  function Shifted(qty: map<Key, real>, leg: Leg): map<Key, real> {
    var k := (leg.wallet, leg.pool);
    var q := Term(qty, k) + (if leg.side == Buy then leg.qty else -leg.qty);
    if -DUST < q < DUST then qty - {k} else qty[k := q]
  }

  function Booked(s: Totals, leg: Leg): Totals
    requires leg.Valued()
  {
    Totals(s.cash[leg.wallet := Term(s.cash, leg.wallet) + (if leg.side == Sell then leg.value else -leg.value)],
           Shifted(s.qty, leg), s.price[leg.pool := leg.Price()])
  }

  function After(legs: seq<Leg>): Totals
    requires AllValued(legs)
  {
    if |legs| == 0 then NOTHING else Booked(After(legs[..|legs| - 1]), legs[|legs| - 1])
  }

  function Value(s: Totals, w: string, p: string): real {
    Times(Term(s.qty, (w, p)), Term(s.price, p))
  }

  function ValueByPool(s: Totals, w: string): map<string, real> {
    map k | k in s.qty && k.0 == w :: k.1 := Value(s, w, k.1)
  }

  function PoolsOf(ks: set<Key>, w: string): set<string> {
    set k | k in ks && k.0 == w :: k.1
  }

  /** What a snapshot gives a wallet. */
  ghost function Snap(s: Totals, w: string): real {
    Term(s.cash, w) + Sum(PoolsOf(s.qty.Keys, w), ValueByPool(s, w))
  }

  /** The snapshot with the quantities `seen` so far added in. */
  ghost predicate Snapped(s: Totals, seen: set<Key>, tot: map<string, real>)
    requires seen <= s.qty.Keys
  {
    && (forall w :: w in tot <==> w in s.cash || Nonzero(s, seen, w))
    && (forall w :: Term(tot, w) == Term(s.cash, w) + Sum(PoolsOf(seen, w), ValueByPool(s, w)))
  }

  /** `_snapshot`. */
  method Snapshot(s: Totals) returns (tot: map<string, real>)
    ensures forall w :: w in tot <==> w in s.cash || Nonzero(s, s.qty.Keys, w)
    ensures forall w :: Term(tot, w) == Snap(s, w)
  {
    tot := s.cash;
    ghost var seen := {};
    var rest := s.qty.Keys;
    SnappedNone(s);
    while rest != {}
      invariant seen + rest == s.qty.Keys && seen !! rest
      invariant Snapped(s, seen, tot)
      decreases |rest|
    {
      hide Snapped, Value, Nonzero, Snap;
      var k :| k in rest;
      SnappedStep(s, seen, k, tot);
      rest, seen := rest - {k}, seen + {k};
      if s.qty[k] != 0.0 {
        tot := tot[k.0 := Term(tot, k.0) + Value(s, k.0, k.1)];
      }
    }
    assert seen == s.qty.Keys;
  }

  lemma SnappedNone(s: Totals)
    ensures Snapped(s, {}, s.cash)
  {
    forall w ensures PoolsOf({}, w) == {} {}
  }

  lemma SnappedStep(s: Totals, seen: set<Key>, k: Key, tot: map<string, real>)
    requires seen + {k} <= s.qty.Keys && k !in seen && Snapped(s, seen, tot)
    ensures Snapped(s, seen + {k}, if s.qty[k] != 0.0 then tot[k.0 := Term(tot, k.0) + Value(s, k.0, k.1)] else tot)
  {
    hide PoolsOf, ValueByPool, Sum, Value, Nonzero;
    SeenOneMore(s, seen, k);
    SeenNonzero(s, seen, k);
    var tot' := if s.qty[k] != 0.0 then tot[k.0 := Term(tot, k.0) + Value(s, k.0, k.1)] else tot;
    forall w ensures Term(tot', w) == Term(tot, w) + (if w == k.0 then Value(s, k.0, k.1) else 0.0) {}
    hide Term;
  }

  /** Wallet w has a nonzero quantity among the seen keys. */
  ghost predicate Nonzero(s: Totals, seen: set<Key>, w: string)
    requires seen <= s.qty.Keys
  {
    exists p :: (w, p) in seen && s.qty[(w, p)] != 0.0
  }

  lemma SeenNonzero(s: Totals, seen: set<Key>, k: Key)
    requires seen + {k} <= s.qty.Keys
    ensures forall w :: Nonzero(s, seen + {k}, w) <==> Nonzero(s, seen, w) || (w == k.0 && s.qty[k] != 0.0)
  {
    assert (k.0, k.1) == k;
    forall w ensures Nonzero(s, seen + {k}, w) <==> Nonzero(s, seen, w) || (w == k.0 && s.qty[k] != 0.0) {
      if Nonzero(s, seen, w) {
        var p :| (w, p) in seen && s.qty[(w, p)] != 0.0;
        assert (w, p) in seen + {k};
      }
    }
  }

  lemma SeenOneMore(s: Totals, seen: set<Key>, k: Key)
    requires k in s.qty && k !in seen
    ensures forall w :: Sum(PoolsOf(seen + {k}, w), ValueByPool(s, w))
                     == Sum(PoolsOf(seen, w), ValueByPool(s, w)) + (if w == k.0 then Value(s, k.0, k.1) else 0.0)
    ensures s.qty[k] == 0.0 ==> Value(s, k.0, k.1) == 0.0
  {
    assert (k.0, k.1) == k;
    forall w ensures Sum(PoolsOf(seen + {k}, w), ValueByPool(s, w))
                  == Sum(PoolsOf(seen, w), ValueByPool(s, w)) + (if w == k.0 then Value(s, k.0, k.1) else 0.0)
    {
      if w == k.0 {
        assert k.1 !in PoolsOf(seen, w);
        assert PoolsOf(seen + {k}, w) == PoolsOf(seen, w) + {k.1};
        SumChange(PoolsOf(seen, w), ValueByPool(s, w), ValueByPool(s, w), k.1);
      } else {
        assert PoolsOf(seen + {k}, w) == PoolsOf(seen, w);
      }
    }
  }
}
