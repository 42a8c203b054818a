/** Average-cost accounting of arc-intel/indexer/pnl.py for one wallet in one pool, and exactly when it balances. */
module Pnl {
  import opened Options
  import opened Reals
  import opened Text

  // ----- valuing a swap

  datatype Side = Buy | Sell

  datatype Leg = Leg(wallet: string, token: string, pool: string, block: int, logIndex: int,
                     side: Side, qty: real, value: real)
  {
    predicate Valued() { qty > 0.0 && value > 0.0 }

    function Price(): real
      requires Valued()
    {
      value / qty
    }
  }

  /** A leg's price makes its quantity worth its value. */
  lemma PriceIs(leg: Leg)
    requires leg.Valued()
    ensures leg.Price() > 0.0 && leg.qty * leg.Price() == leg.value
  {
  }

  predicate AllValued(legs: seq<Leg>) {
    forall i :: 0 <= i < |legs| ==> legs[i].Valued()
  }

  datatype Swap = Swap(wallet: string, pool: string, block: int, logIndex: int, amountIn: int, amountOut: int)

  /** What is known about tokens: which are USD stables, and their decimals. */
  datatype Tokens = Tokens(stables: set<string>, decimals: map<string, nat>, defaultDecimals: nat)
  {
    predicate Stable(t: string) { Lower(t) in stables }

    function Decimals(t: string): nat {
      if Lower(t) in decimals then decimals[Lower(t)] else defaultDecimals
    }
  }

  function Pow10(n: nat): (r: real)
    ensures r >= 1.0
  {
    if n == 0 then 1.0 else 10.0 * Pow10(n - 1)
  }

  /** The signed amounts seen from the stable side, when the pool has one. */
  function Quoted(swap: Swap, pools: map<string, (string, string)>, tokens: Tokens): Option<(string, int, string, int)> {
    if Lower(swap.pool) !in pools then None
    else
      var c0, c1 := Lower(pools[Lower(swap.pool)].0), Lower(pools[Lower(swap.pool)].1);
      if tokens.Stable(c0) then Some((c0, swap.amountIn, c1, swap.amountOut))
      else if tokens.Stable(c1) then Some((c1, swap.amountOut, c0, swap.amountIn))
      else None
  }

  /** `leg_from_swap`. */
  function LegFromSwap(swap: Swap, pools: map<string, (string, string)>, tokens: Tokens): Option<Leg> {
    var q := Quoted(swap, pools, tokens);
    if q.None? || tokens.Stable(q.value.2) then None
    else
      var (stable, paid, token, got) := q.value;
      Valuation(swap, token, paid, got, Pow10(tokens.Decimals(token)), Pow10(tokens.Decimals(stable)))
  }

  function Valuation(swap: Swap, token: string, paid: int, got: int, unit: real, dollar: real): Option<Leg>
    requires unit >= 1.0 && dollar >= 1.0
  {
    if paid > 0 && got < 0 then
      Some(Leg(Lower(swap.wallet), token, Lower(swap.pool), swap.block, swap.logIndex, Buy,
               (-got) as real / unit, paid as real / dollar))
    else if paid < 0 && got > 0 then
      Some(Leg(Lower(swap.wallet), token, Lower(swap.pool), swap.block, swap.logIndex, Sell,
               got as real / unit, (-paid) as real / dollar))
    else None
  }

  lemma PositiveQuotient(n: int, d: real)
    requires n > 0 && d >= 1.0
    ensures n as real / d > 0.0
  {
  }

  /** A leg comes out exactly when one side is a stable, the other is not, and the two
      amounts have opposite signs; its quantity and value are then positive, and the
      stable amount paid in is what makes it a buy. */
  lemma LegIsValued(swap: Swap, pools: map<string, (string, string)>, tokens: Tokens)
    ensures var q := Quoted(swap, pools, tokens);
            var leg := LegFromSwap(swap, pools, tokens);
            && (leg.Some? <==> q.Some? && !tokens.Stable(q.value.2)
                               && (q.value.1 > 0 > q.value.3 || q.value.1 < 0 < q.value.3))
            && (leg.Some? ==> leg.value.Valued() && (leg.value.side == Buy <==> q.value.1 > 0))
  {
    hide Quoted, Pow10, Lower;
    var q := Quoted(swap, pools, tokens);
    if q.Some? && !tokens.Stable(q.value.2) {
      var (stable, paid, token, got) := q.value;
      var unit, dollar := Pow10(tokens.Decimals(token)), Pow10(tokens.Decimals(stable));
      assert LegFromSwap(swap, pools, tokens) == Valuation(swap, token, paid, got, unit, dollar);
      if paid > 0 && got < 0 {
        PositiveQuotient(-got, unit);
        PositiveQuotient(paid, dollar);
      } else if paid < 0 && got > 0 {
        PositiveQuotient(got, unit);
        PositiveQuotient(-paid, dollar);
      }
    }
  }

  lemma {:induction false} Pow10Adds(m: nat, n: nat)
    ensures Pow10(m + n) == Pow10(m) * Pow10(n) && Pow10(1) == 10.0
  {
    if m > 0 {
      Pow10Adds(m - 1, n);
      assert 10.0 * (Pow10(m - 1) * Pow10(n)) == 10.0 * Pow10(m - 1) * Pow10(n);
    } else {
      assert Pow10(1) == 10.0 * Pow10(0);
    }
  }

  function Abs(n: int): int {
    if n >= 0 then n else -n
  }

  /** The pool's two currencies, in lower case. */
  function Pair(swap: Swap, pools: map<string, (string, string)>): (string, string)
    requires Lower(swap.pool) in pools
  {
    (Lower(pools[Lower(swap.pool)].0), Lower(pools[Lower(swap.pool)].1))
  }

  function DecimalsOf(t: string, tokens: Tokens): nat {
    if t in tokens.decimals then tokens.decimals[t] else tokens.defaultDecimals
  }

  /** A known pool with exactly one stable side, and amounts of opposite signs. */
  predicate Tradable(swap: Swap, pools: map<string, (string, string)>, tokens: Tokens) {
    && Lower(swap.pool) in pools
    && (Pair(swap, pools).0 in tokens.stables) != (Pair(swap, pools).1 in tokens.stables)
    && (swap.amountIn > 0 > swap.amountOut || swap.amountIn < 0 < swap.amountOut)
  }

  lemma QuotedIs(swap: Swap, pools: map<string, (string, string)>, tokens: Tokens)
    ensures Quoted(swap, pools, tokens).Some?
       <==> Lower(swap.pool) in pools && (Pair(swap, pools).0 in tokens.stables || Pair(swap, pools).1 in tokens.stables)
    ensures Lower(swap.pool) in pools ==>
              var (c0, c1) := Pair(swap, pools);
              && (c0 in tokens.stables ==> Quoted(swap, pools, tokens) == Some((c0, swap.amountIn, c1, swap.amountOut)))
              && (c0 !in tokens.stables && c1 in tokens.stables ==>
                    Quoted(swap, pools, tokens) == Some((c1, swap.amountOut, c0, swap.amountIn)))
              && (tokens.Stable(c0) <==> c0 in tokens.stables) && (tokens.Stable(c1) <==> c1 in tokens.stables)
              && tokens.Decimals(c0) == DecimalsOf(c0, tokens) && tokens.Decimals(c1) == DecimalsOf(c1, tokens)
  {
    if Lower(swap.pool) in pools {
      LowerIdempotent(pools[Lower(swap.pool)].0);
      LowerIdempotent(pools[Lower(swap.pool)].1);
      hide Lower;
    }
  }

  lemma Unscaled(n: int, d: real)
    requires d >= 1.0
    ensures n as real / d * d == n as real
  {
  }

  lemma ValuationIs(swap: Swap, token: string, paid: int, got: int, unit: real, dollar: real)
    requires unit >= 1.0 && dollar >= 1.0
    ensures var leg := Valuation(swap, token, paid, got, unit, dollar);
            && (leg.Some? <==> paid > 0 > got || paid < 0 < got)
            && (leg.Some? ==>
                  && leg.value.qty * unit == Abs(got) as real && leg.value.value * dollar == Abs(paid) as real
                  && leg.value == Leg(Lower(swap.wallet), token, Lower(swap.pool), swap.block, swap.logIndex,
                                      if paid > 0 then Buy else Sell, leg.value.qty, leg.value.value))
  {
    hide Lower;
    Unscaled(Abs(got), unit);
    Unscaled(Abs(paid), dollar);
  }

  /** The stable side of a tradable pool, what was paid on it, the token, and what was
      got of it: the side whose currency is stable comes first. */
  function Sides(swap: Swap, pools: map<string, (string, string)>, tokens: Tokens): (string, int, string, int)
    requires Lower(swap.pool) in pools
  {
    var (c0, c1) := Pair(swap, pools);
    if c0 in tokens.stables then (c0, swap.amountIn, c1, swap.amountOut) else (c1, swap.amountOut, c0, swap.amountIn)
  }

  lemma TradedSides(swap: Swap, pools: map<string, (string, string)>, tokens: Tokens)
    ensures LegFromSwap(swap, pools, tokens).Some? ==> Lower(swap.pool) in pools
    ensures Lower(swap.pool) in pools ==>
              var (c0, c1), (stable, paid, token, got) := Pair(swap, pools), Sides(swap, pools, tokens);
              LegFromSwap(swap, pools, tokens)
              == if (c0 in tokens.stables) != (c1 in tokens.stables)
                 then Valuation(swap, token, paid, got, Pow10(DecimalsOf(token, tokens)), Pow10(DecimalsOf(stable, tokens)))
                 else None
  {
    QuotedIs(swap, pools, tokens);
    hide Quoted, Lower, Pow10, Pair, DecimalsOf, Valuation, Tokens.Stable, Tokens.Decimals;
  }

  /** The leg is about the pool's other currency. Quantity and value are the absolute
      amounts in units of their own decimals, and everything else is the swap's. */
  lemma LegIs(swap: Swap, pools: map<string, (string, string)>, tokens: Tokens)
    ensures LegFromSwap(swap, pools, tokens).Some? <==> Tradable(swap, pools, tokens)
    ensures Tradable(swap, pools, tokens) ==>
              var leg, (stable, paid, token, got) := LegFromSwap(swap, pools, tokens).value, Sides(swap, pools, tokens);
              && stable in tokens.stables && token !in tokens.stables
              && leg.qty * Pow10(DecimalsOf(token, tokens)) == Abs(got) as real
              && leg.value * Pow10(DecimalsOf(stable, tokens)) == Abs(paid) as real
              && leg == Leg(Lower(swap.wallet), token, Lower(swap.pool), swap.block, swap.logIndex, if paid > 0 then Buy else Sell,
                            leg.qty, leg.value)
  {
    TradedSides(swap, pools, tokens);
    hide LegFromSwap, Lower, Pow10, Pair, DecimalsOf, Abs, Valuation;
    if Lower(swap.pool) in pools {
      var (stable, paid, token, got) := Sides(swap, pools, tokens);
      ValuationIs(swap, token, paid, got, Pow10(DecimalsOf(token, tokens)), Pow10(DecimalsOf(stable, tokens)));
    }
  }

  /** The same swap with its amounts written in other decimals. */
  ghost predicate Rescaled(swap: Swap, swap': Swap, pools: map<string, (string, string)>, tokens: Tokens, tokens': Tokens) {
    && swap' == swap.(amountIn := swap'.amountIn, amountOut := swap'.amountOut) && tokens'.stables == tokens.stables
    && (Lower(swap.pool) in pools ==>
          var (c0, c1) := Pair(swap, pools);
          && swap'.amountIn as real * Pow10(DecimalsOf(c0, tokens)) == swap.amountIn as real * Pow10(DecimalsOf(c0, tokens'))
          && swap'.amountOut as real * Pow10(DecimalsOf(c1, tokens)) == swap.amountOut as real * Pow10(DecimalsOf(c1, tokens')))
  }

  lemma SameSign(n: int, d: real, n': int, d': real)
    requires d >= 1.0 && d' >= 1.0 && n' as real * d == n as real * d'
    ensures (n > 0 <==> n' > 0) && (n < 0 <==> n' < 0)
    ensures Abs(n') as real * d == Abs(n) as real * d'
  {
    if n > 0 { Positive(n as real, d'); } else if n < 0 { Positive(-n as real, d'); }
    if n' > 0 { Positive(n' as real, d); } else if n' < 0 { Positive(-n' as real, d); }
  }

  lemma Positive(x: real, y: real)
    requires x > 0.0 && y > 0.0
    ensures x * y > 0.0
  {
  }

  lemma SameQuotient(a: real, d: real, a': real, d': real, x: real, x': real)
    requires d >= 1.0 && d' >= 1.0 && a' * d == a * d' && x * d == a && x' * d' == a'
    ensures x == x'
  {
    assert x' * (d' * d) == a' * d && x * (d * d') == a * d';
    assert (x - x') * (d * d') == 0.0;
    Positive(d, d');
    if x > x' { Positive(x - x', d * d'); } else if x < x' { Positive(x' - x, d * d'); }
  }

  lemma ValuationScales(swap: Swap, swap': Swap, token: string, paid: int, got: int, paid': int, got': int,
                        unit: real, dollar: real, unit': real, dollar': real)
    requires unit >= 1.0 && dollar >= 1.0 && unit' >= 1.0 && dollar' >= 1.0
    requires swap' == swap.(amountIn := swap'.amountIn, amountOut := swap'.amountOut)
    requires paid' as real * dollar == paid as real * dollar' && got' as real * unit == got as real * unit'
    ensures Valuation(swap', token, paid', got', unit', dollar') == Valuation(swap, token, paid, got, unit, dollar)
  {
    ValuationIs(swap, token, paid, got, unit, dollar);
    ValuationIs(swap', token, paid', got', unit', dollar');
    SameSign(paid, dollar, paid', dollar');
    SameSign(got, unit, got', unit');
    hide Valuation, Lower, Abs;
    var leg, leg' := Valuation(swap, token, paid, got, unit, dollar), Valuation(swap', token, paid', got', unit', dollar');
    if leg.Some? {
      SameQuotient(Abs(paid) as real, dollar, Abs(paid') as real, dollar', leg.value.value, leg'.value.value);
      SameQuotient(Abs(got) as real, unit, Abs(got') as real, unit', leg.value.qty, leg'.value.qty);
    }
  }

  /** How the amounts are scaled does not matter. */
  lemma LegScales(swap: Swap, swap': Swap, pools: map<string, (string, string)>, tokens: Tokens, tokens': Tokens)
    requires Rescaled(swap, swap', pools, tokens, tokens')
    ensures LegFromSwap(swap', pools, tokens') == LegFromSwap(swap, pools, tokens)
  {
    TradedSides(swap, pools, tokens);
    TradedSides(swap', pools, tokens');
    hide LegFromSwap, Lower, Pow10, DecimalsOf, Valuation;
    if Lower(swap.pool) in pools {
      assert Pair(swap', pools) == Pair(swap, pools);
      hide Pair;
      var (stable, paid, token, got) := Sides(swap, pools, tokens);
      var (_, paid', _, got') := Sides(swap', pools, tokens');
      ValuationScales(swap, swap', token, paid, got, paid', got', Pow10(DecimalsOf(token, tokens)),
                      Pow10(DecimalsOf(stable, tokens)), Pow10(DecimalsOf(token, tokens')), Pow10(DecimalsOf(stable, tokens')));
    }
  }

  // ----- the account

  /** Quantity held, its total cost, the profit realised, and the block of the buy
      that opened the position. */
  datatype Acct = Acct(qty: real, cost: real, realized: real, entry: Option<int>)

  const FLAT := Acct(0.0, 0.0, 0.0, None)

  /** Cost of `sold` units at average cost. */
  function CostOf(a: Acct, sold: real): real
    requires a.qty > 0.0
  {
    a.cost / a.qty * sold
  }

  function Proceeds(leg: Leg, sold: real): real
    requires leg.Valued()
  {
    leg.value * (sold / leg.qty)
  }

  function SoldOf(a: Acct, leg: Leg): real {
    Min(leg.qty, a.qty)
  }

  function Fill(a: Acct, leg: Leg): Acct
    requires leg.Valued()
  {
    if leg.side == Buy then
      Acct(a.qty + leg.qty, a.cost + leg.value, a.realized, if a.entry == None then Some(leg.block) else a.entry)
    else if a.qty <= 0.0 then a
    else
      var sold := SoldOf(a, leg);
      var realized := a.realized + (Proceeds(leg, sold) - CostOf(a, sold));
      if a.qty - sold <= DUST then Acct(0.0, 0.0, realized, None)
      else Acct(a.qty - sold, a.cost - CostOf(a, sold), realized, a.entry)
  }

  function Book(legs: seq<Leg>): Acct
    requires AllValued(legs)
  {
    if |legs| == 0 then FLAT else Fill(Book(legs[..|legs| - 1]), legs[|legs| - 1])
  }

  lemma BookStep(legs: seq<Leg>, leg: Leg)
    requires AllValued(legs) && leg.Valued()
    ensures AllValued(legs + [leg]) && Book(legs + [leg]) == Fill(Book(legs), leg)
  {
    assert (legs + [leg])[..|legs|] == legs;
    hide Fill;
  }

  predicate Sound(a: Acct) {
    a.qty >= 0.0 && a.cost >= 0.0 && (a.entry == None <==> a.qty == 0.0) && (a.qty == 0.0 ==> a.cost == 0.0)
  }

  lemma CostBounds(a: Acct, sold: real)
    requires a.qty > 0.0 && a.cost >= 0.0 && 0.0 <= sold <= a.qty
    ensures 0.0 <= CostOf(a, sold) <= a.cost
    ensures sold == a.qty ==> CostOf(a, sold) == a.cost
  {
    var avg := a.cost / a.qty;
    assert avg * a.qty == a.cost;
    assert avg * (a.qty - sold) >= 0.0;
  }

  lemma FillIsSound(a: Acct, leg: Leg)
    requires Sound(a) && leg.Valued()
    ensures Sound(Fill(a, leg))
  {
    if leg.side == Sell && a.qty > 0.0 {
      CostBounds(a, SoldOf(a, leg));
      hide CostOf, Proceeds;
    }
  }

  /** Quantity and cost never go negative, and a flat account has no cost. */
  lemma {:induction false} BookIsSound(legs: seq<Leg>)
    requires AllValued(legs)
    ensures Sound(Book(legs))
  {
    if |legs| > 0 {
      BookIsSound(legs[..|legs| - 1]);
      FillIsSound(Book(legs[..|legs| - 1]), legs[|legs| - 1]);
    }
  }

  /** A sale leaves the average cost of what remains unchanged. */
  lemma SaleKeepsAverage(a: Acct, leg: Leg)
    requires Sound(a) && leg.Valued() && leg.side == Sell && Fill(a, leg).qty > 0.0
    ensures a.qty > 0.0 && Fill(a, leg).cost / Fill(a, leg).qty == a.cost / a.qty
  {
    var sold, avg := SoldOf(a, leg), a.cost / a.qty;
    var left := a.qty - sold;
    assert a.cost == avg * a.qty;
    assert a.cost - avg * sold == avg * left;
    assert avg * left / left == avg;
  }

  // ----- conservation

  function Cash(legs: seq<Leg>): real {
    if |legs| == 0 then 0.0
    else
      var leg := legs[|legs| - 1];
      Cash(legs[..|legs| - 1]) + (if leg.side == Sell then leg.value else -leg.value)
  }

  function Net(legs: seq<Leg>): real {
    if |legs| == 0 then 0.0
    else
      var leg := legs[|legs| - 1];
      Net(legs[..|legs| - 1]) + (if leg.side == Buy then leg.qty else -leg.qty)
  }

  lemma CashStep(legs: seq<Leg>, leg: Leg)
    ensures Cash(legs + [leg]) == Cash(legs) + (if leg.side == Sell then leg.value else -leg.value)
    ensures Net(legs + [leg]) == Net(legs) + (if leg.side == Buy then leg.qty else -leg.qty)
  {
    assert (legs + [leg])[..|legs|] == legs;
  }

  /** Cash and quantity that passed through a wallet without entering its account:
      the oversold part of a sale, and a dust remainder written off with its cost. */
  datatype Slip = Slip(cash: real, qty: real)

  function SlipOf(a: Acct, leg: Leg): Slip
    requires leg.Valued()
  {
    if leg.side == Buy then Slip(0.0, 0.0)
    else if a.qty <= 0.0 then Slip(leg.value, -leg.qty)
    else
      var sold := SoldOf(a, leg);
      var oversold := Slip(leg.value - Proceeds(leg, sold), sold - leg.qty);
      if a.qty - sold <= DUST then
        Slip(oversold.cash - (a.cost - CostOf(a, sold)), oversold.qty + (a.qty - sold))
      else oversold
  }

  function Slipped(legs: seq<Leg>): Slip
    requires AllValued(legs)
  {
    if |legs| == 0 then Slip(0.0, 0.0)
    else
      var before, now := Slipped(legs[..|legs| - 1]), SlipOf(Book(legs[..|legs| - 1]), legs[|legs| - 1]);
      Slip(before.cash + now.cash, before.qty + now.qty)
  }

  /** Cash flow is what was realised less the cost still held, plus what slipped;
      bought less sold is what is held, plus what slipped. */
  lemma {:induction false} FlowsBalance(legs: seq<Leg>)
    requires AllValued(legs)
    ensures Cash(legs) == Book(legs).realized - Book(legs).cost + Slipped(legs).cash
    ensures Net(legs) == Book(legs).qty + Slipped(legs).qty
  {
    hide CostOf, Proceeds, SoldOf;
    if |legs| > 0 { FlowsBalance(legs[..|legs| - 1]); }
  }

  /** The sale fits the position and leaves nothing or more than dust. */
  predicate Fits(a: Acct, leg: Leg) {
    leg.side == Sell ==> leg.qty <= a.qty && (leg.qty == a.qty || a.qty - leg.qty > DUST)
  }

  /** The position is flat or large enough to be marked. */
  predicate NoDust(a: Acct) {
    a.qty == 0.0 || a.qty > DUST
  }

  /** Every sale fits. */
  predicate Covered(legs: seq<Leg>)
    requires AllValued(legs)
  {
    |legs| > 0 ==> Covered(legs[..|legs| - 1]) && Fits(Book(legs[..|legs| - 1]), legs[|legs| - 1])
  }

  lemma CoveredSaleSlipsNothing(a: Acct, leg: Leg)
    requires Sound(a) && leg.Valued() && Fits(a, leg)
    ensures SlipOf(a, leg) == Slip(0.0, 0.0)
  {
    if leg.side == Sell {
      CostBounds(a, leg.qty);
      assert Proceeds(leg, leg.qty) == leg.value;
      hide CostOf, Proceeds;
    }
  }

  lemma {:induction false} CoveredSlipsNothing(legs: seq<Leg>)
    requires AllValued(legs) && Covered(legs)
    ensures Slipped(legs) == Slip(0.0, 0.0)
  {
    if |legs| > 0 {
      var before, leg := legs[..|legs| - 1], legs[|legs| - 1];
      CoveredSlipsNothing(before);
      BookIsSound(before);
      CoveredSaleSlipsNothing(Book(before), leg);
      hide SlipOf, Book;
    }
  }

  /** What the open position is worth over its cost; dust is not marked. */
  function Unrealized(a: Acct, price: real): real {
    if a.qty <= DUST then 0.0 else a.qty * price - a.cost
  }

  /** Marked to market at any price, cash flow plus net quantity is realised plus
      unrealised profit plus exactly what slipped and the unmarked dust. */
  lemma MarkedToMarket(legs: seq<Leg>, price: real)
    requires AllValued(legs)
    ensures var a, s := Book(legs), Slipped(legs);
            Cash(legs) + Times(Net(legs), price)
            == a.realized + Unrealized(a, price) + s.cash + s.qty * price
               + (if a.qty <= DUST then a.qty * price - a.cost else 0.0)
  {
    hide Book, Slipped, Cash, Net;
    FlowsBalance(legs);
    Distributes(Book(legs).qty, Slipped(legs).qty, price);
  }

  lemma Distributes(x: real, y: real, z: real)
    ensures (x + y) * z == x * z + y * z
  {
  }

  /** The conservation law: with every sale covered and no dust position left, net
      cash plus net quantity at any price is realised plus unrealised profit. */
  lemma Conservation(legs: seq<Leg>, price: real)
    requires AllValued(legs) && Covered(legs) && NoDust(Book(legs))
    ensures Cash(legs) + Times(Net(legs), price) == Book(legs).realized + Unrealized(Book(legs), price)
  {
    hide Book, Slipped, Cash, Net;
    MarkedToMarket(legs, price);
    CoveredSlipsNothing(legs);
    BookIsSound(legs);
  }

  // ----- when the account balances at every price

  ghost predicate Grainy(legs: seq<Leg>, g: real) {
    forall i :: 0 <= i < |legs| ==> Multiple(legs[i].qty, g)
  }

  ghost predicate ConservesAt(legs: seq<Leg>, price: real)
    requires AllValued(legs)
  {
    Cash(legs) + Times(Net(legs), price) == Book(legs).realized + Unrealized(Book(legs), price)
  }

  /** The sale is within the position. */
  predicate Within(a: Acct, leg: Leg) {
    leg.side == Sell ==> leg.qty <= a.qty
  }

  lemma GrainySale(a: Acct, leg: Leg, g: real)
    requires Sound(a) && leg.Valued() && Multiple(a.qty, g) && Multiple(leg.qty, g) && g > DUST
    requires leg.side == Sell && leg.qty <= a.qty
    ensures leg.qty == a.qty || a.qty - leg.qty > DUST
  {
    MultiplesAdd(a.qty, leg.qty, g);
    hide Multiple;
    if a.qty - leg.qty <= DUST { SmallMultipleIsZero(a.qty - leg.qty, g); }
  }

  lemma GrainyFill(a: Acct, leg: Leg, g: real)
    requires Sound(a) && leg.Valued() && Multiple(a.qty, g) && Multiple(leg.qty, g)
    ensures Multiple(Fill(a, leg).qty, g)
  {
    MultiplesAdd(a.qty, leg.qty, g);
    assert 0.0 == Grains(0, g);
    assert Multiple(0.0, g);
    hide Multiple, CostOf, Proceeds, Grains;
  }

  /** In grains above dust only an oversold part slips, and it slips out. */
  lemma GrainySlip(a: Acct, leg: Leg, g: real)
    requires Sound(a) && leg.Valued() && Multiple(a.qty, g) && Multiple(leg.qty, g) && g > DUST
    ensures SlipOf(a, leg).qty <= 0.0 && (SlipOf(a, leg).qty == 0.0 <==> Within(a, leg))
    ensures Within(a, leg) ==> SlipOf(a, leg) == Slip(0.0, 0.0)
  {
    if leg.side == Sell {
      hide Multiple, CostOf, Proceeds, Fill;
      if leg.qty <= a.qty {
        GrainySale(a, leg, g);
        CoveredSaleSlipsNothing(a, leg);
      }
    }
  }

  lemma {:induction false} GrainyBook(legs: seq<Leg>, g: real)
    requires AllValued(legs) && Grainy(legs, g)
    ensures Multiple(Book(legs).qty, g)
  {
    if |legs| == 0 {
      assert 0.0 == Grains(0, g);
    } else {
      var before := legs[..|legs| - 1];
      hide Multiple, Fill, Sound;
      GrainyBook(before, g);
      BookIsSound(before);
      GrainyFill(Book(before), legs[|legs| - 1], g);
    }
  }

  lemma CoveredStep(legs: seq<Leg>, g: real)
    requires AllValued(legs) && Grainy(legs, g) && g > DUST && |legs| > 0
    ensures Covered(legs) <==> Covered(legs[..|legs| - 1]) && Within(Book(legs[..|legs| - 1]), legs[|legs| - 1])
  {
    var before, leg := legs[..|legs| - 1], legs[|legs| - 1];
    hide Multiple, Book, Sound;
    GrainyBook(before, g);
    BookIsSound(before);
    if leg.side == Sell && leg.qty <= Book(before).qty { GrainySale(Book(before), leg, g); }
  }

  lemma {:induction false} GrainySlipped(legs: seq<Leg>, g: real)
    requires AllValued(legs) && Grainy(legs, g) && g > DUST
    ensures Slipped(legs).qty <= 0.0 && (Slipped(legs).qty == 0.0 <==> Covered(legs))
  {
    if |legs| > 0 {
      var before, leg := legs[..|legs| - 1], legs[|legs| - 1];
      GrainySlipped(before, g);
      CoveredStep(legs, g);
      hide Multiple, Book, Sound, SlipOf, Covered, Within;
      GrainyBook(before, g);
      BookIsSound(before);
      GrainySlip(Book(before), leg, g);
    }
  }

  lemma GrainyHolding(legs: seq<Leg>, g: real)
    requires AllValued(legs) && Grainy(legs, g) && g > DUST
    ensures NoDust(Book(legs))
  {
    hide Book, Multiple, Sound;
    GrainyBook(legs, g);
    BookIsSound(legs);
    HeldIsNotNegative(Book(legs));
    if Book(legs).qty <= DUST { SmallMultipleIsZero(Book(legs).qty, g); }
  }

  lemma HeldIsNotNegative(a: Acct)
    requires Sound(a)
    ensures a.qty >= 0.0 && (a.qty == 0.0 ==> a.cost == 0.0)
  {
  }

  lemma ConservesAtIff(legs: seq<Leg>, price: real)
    requires AllValued(legs) && NoDust(Book(legs))
    ensures ConservesAt(legs, price) <==> Slipped(legs).cash + Times(Slipped(legs).qty, price) == 0.0
  {
    hide Book, Slipped, Cash, Net;
    MarkedToMarket(legs, price);
    BookIsSound(legs);
  }

  /** With quantities in whole grains above dust, the final account alone balances at
      every price if and only if no sale exceeded the position. */
  lemma FinalInGrainsIff(legs: seq<Leg>, g: real)
    requires AllValued(legs) && Grainy(legs, g) && g > DUST
    ensures (forall price :: ConservesAt(legs, price)) <==> Covered(legs)
  {
    hide Book, Slipped, Cash, Net, Multiple, Covered, ConservesAt;
    GrainySlipped(legs, g);
    GrainyHolding(legs, g);
    if Covered(legs) {
      CoveredSlipsNothing(legs);
      forall price ensures ConservesAt(legs, price) { ConservesAtIff(legs, price); }
    } else {
      ConservesAtIff(legs, 0.0);
      ConservesAtIff(legs, 1.0);
    }
  }

  // ----- the exact condition, for any quantities

  /** The account balances at every price after every leg. */
  ghost predicate ConservesThroughout(legs: seq<Leg>)
    requires AllValued(legs)
  {
    forall n, price :: 0 <= n <= |legs| ==> ConservesAt(legs[..n], price)
  }

  /** Every sale is covered, and no leg leaves dust. */
  ghost predicate CoveredThroughout(legs: seq<Leg>)
    requires AllValued(legs)
  {
    Covered(legs) && forall n :: 0 <= n <= |legs| ==> NoDust(Book(legs[..n]))
  }

  /** Quantity the account does not mark: what the leg lets slip, and dust left. */
  function Unmarked(a: Acct, leg: Leg): real
    requires leg.Valued()
  {
    SlipOf(a, leg).qty + if Fill(a, leg).qty <= DUST then Fill(a, leg).qty else 0.0
  }

  /** A leg of a dust-free account leaves nothing unmarked only if it fits. */
  lemma NothingUnmarked(a: Acct, leg: Leg)
    requires Sound(a) && leg.Valued() && Unmarked(a, leg) == 0.0
    ensures Fits(a, leg) && NoDust(Fill(a, leg))
  {
    FillIsSound(a, leg);
    hide CostOf, Proceeds;
  }

  lemma TimesZero(x: real)
    ensures Times(x, 0.0) == 0.0 && Times(x, 1.0) == x
  {
  }

  lemma SlippedMore(legs: seq<Leg>, leg: Leg)
    requires AllValued(legs) && leg.Valued() && Covered(legs)
    ensures AllValued(legs + [leg]) && Book(legs + [leg]) == Fill(Book(legs), leg)
    ensures Slipped(legs + [leg]) == SlipOf(Book(legs), leg)
  {
    hide Fill, SlipOf, Covered;
    assert (legs + [leg])[..|legs|] == legs;
    CoveredSlipsNothing(legs);
  }

  /** Balancing at two prices leaves nothing slipped and unmarked. */
  lemma BalancedAtTwo(legs: seq<Leg>)
    requires AllValued(legs) && ConservesAt(legs, 0.0) && ConservesAt(legs, 1.0)
    ensures Slipped(legs).qty + (if Book(legs).qty <= DUST then Book(legs).qty else 0.0) == 0.0
  {
    hide Book, Slipped, Cash, Net;
    MarkedToMarket(legs, 0.0);
    MarkedToMarket(legs, 1.0);
    TimesZero(Net(legs));
  }

  lemma BalancedUnmarked(legs: seq<Leg>, leg: Leg)
    requires AllValued(legs + [leg]) && AllValued(legs) && leg.Valued() && Covered(legs)
    requires ConservesAt(legs + [leg], 0.0) && ConservesAt(legs + [leg], 1.0)
    ensures Unmarked(Book(legs), leg) == 0.0
  {
    hide Book, Slipped, SlipOf, Fill, Covered, ConservesAt;
    SlippedMore(legs, leg);
    BalancedAtTwo(legs + [leg]);
  }

  lemma CoveredMore(legs: seq<Leg>, leg: Leg)
    requires AllValued(legs) && leg.Valued()
    ensures AllValued(legs + [leg]) && (Covered(legs + [leg]) <==> Covered(legs) && Fits(Book(legs), leg))
  {
    assert (legs + [leg])[..|legs|] == legs;
    hide Fill;
  }

  lemma ValuedPrefix(legs: seq<Leg>, n: nat)
    requires AllValued(legs) && n <= |legs|
    ensures AllValued(legs[..n])
  {
  }

  /** The first leg that slips or leaves dust shows at its own place. */
  lemma {:induction false} ThroughoutUpto(legs: seq<Leg>, n: nat)
    requires AllValued(legs) && n <= |legs| && ConservesThroughout(legs)
    ensures Covered(legs[..n]) && NoDust(Book(legs[..n]))
  {
    if n == 0 {
      assert legs[..0] == [];
    } else {
      ThroughoutUpto(legs, n - 1);
      var before, leg := legs[..n - 1], legs[n - 1];
      assert before + [leg] == legs[..n];
      assert ConservesAt(legs[..n], 0.0) && ConservesAt(legs[..n], 1.0);
      hide Book, Covered, Fill, Unmarked, ConservesAt, ConservesThroughout, Sound, Fits, NoDust;
      ValuedPrefix(legs, n);
      BookIsSound(before);
      BalancedUnmarked(before, leg);
      NothingUnmarked(Book(before), leg);
      BookStep(before, leg);
      CoveredMore(before, leg);
    }
  }

  lemma {:induction false} CoveredUpto(legs: seq<Leg>, n: nat)
    requires AllValued(legs) && n <= |legs| && Covered(legs)
    ensures Covered(legs[..n])
  {
    if n < |legs| {
      CoveredUpto(legs[..|legs| - 1], n);
      assert legs[..|legs| - 1][..n] == legs[..n];
    } else {
      assert legs[..n] == legs;
    }
  }

  /** The exact condition of conservation: the account balances at every price after
      every leg if and only if each sale fits the position and no leg leaves dust. */
  lemma ConservationIff(legs: seq<Leg>)
    requires AllValued(legs)
    ensures ConservesThroughout(legs) <==> CoveredThroughout(legs)
  {
    hide Book, Covered, Cash, Net, NoDust, Unrealized;
    assert legs[..|legs|] == legs;
    if ConservesThroughout(legs) {
      forall n | 0 <= n <= |legs| ensures Covered(legs[..n]) && NoDust(Book(legs[..n])) {
        ThroughoutUpto(legs, n);
      }
    }
    if CoveredThroughout(legs) {
      forall n, price | 0 <= n <= |legs| ensures ConservesAt(legs[..n], price) {
        CoveredUpto(legs, n);
        DustFreeConserves(legs[..n], price);
      }
    }
  }

  lemma DustFreeConserves(legs: seq<Leg>, price: real)
    requires AllValued(legs) && Covered(legs) && NoDust(Book(legs))
    ensures ConservesAt(legs, price)
  {
    hide Book, Covered, Cash, Net;
    Conservation(legs, price);
  }

  // ----- where it fails

  /** No sale exceeds the position. */
  predicate NeverOversold(legs: seq<Leg>)
    requires AllValued(legs)
  {
    |legs| > 0 ==> NeverOversold(legs[..|legs| - 1]) && Within(Book(legs[..|legs| - 1]), legs[|legs| - 1])
  }

  function LegOf(side: Side, qty: real, value: real): Leg {
    Leg("w", "t", "p", 1, 1, side, qty, value)
  }

  lemma TwoLegs(a: Leg, b: Leg)
    requires a.Valued() && b.Valued() && a.side == Buy && b.side == Sell
    ensures AllValued([a, b]) && Book([a, b]) == Fill(Acct(a.qty, a.value, 0.0, Some(a.block)), b)
    ensures Cash([a, b]) == b.value - a.value && Net([a, b]) == a.qty - b.qty
    ensures NeverOversold([a, b]) <==> b.qty <= a.qty
  {
    FirstBuy(a);
    hide Fill, Book, Cash, Net;
    BookStep([a], b);
    CashStep([a], b);
    OversellStep([a], b);
    assert [a] + [b] == [a, b];
  }

  lemma OversellStep(legs: seq<Leg>, leg: Leg)
    requires AllValued(legs) && leg.Valued()
    ensures AllValued(legs + [leg])
    ensures NeverOversold(legs + [leg]) <==> NeverOversold(legs) && Within(Book(legs), leg)
  {
    hide Book;
    assert (legs + [leg])[..|legs|] == legs;
  }

  lemma FirstBuy(a: Leg)
    requires a.Valued() && a.side == Buy
    ensures AllValued([a]) && NeverOversold([a]) && Book([a]) == Acct(a.qty, a.value, 0.0, Some(a.block))
    ensures Cash([a]) == -a.value && Net([a]) == a.qty
  {
    BookStep([], a);
    CashStep([], a);
    OversellStep([], a);
    assert [] + [a] == [a];
  }

  /** One unit of at most 1e-18 left of two is written off with its cost: half the
      money paid is neither realised nor held. At 18 decimals this is a whole unit. */
  lemma UnitLeftIsLost(g: real)
    requires 0.0 < g <= DUST
    ensures var legs := [LegOf(Buy, 2.0 * g, 2.0), LegOf(Sell, g, 1.0)];
            && AllValued(legs) && Grainy(legs, g) && NeverOversold(legs)
            && Book(legs) == FLAT && Cash(legs) == -1.0 && !ConservesAt(legs, 0.0)
  {
    var a, b := LegOf(Buy, 2.0 * g, 2.0), LegOf(Sell, g, 1.0);
    TwoLegs(a, b);
    TwoGrains(g);
    hide Book, Cash, Net, NeverOversold, Multiple;
    HalfSold(g);
    TimesZero(Net([a, b]));
    assert [a, b][0] == a && [a, b][1] == b;
  }

  lemma TwoGrains(g: real)
    ensures Multiple(g, g) && Multiple(2.0 * g, g)
  {
    assert g == Grains(1, g) && 2.0 * g == Grains(2, g);
  }

  lemma HalfSold(g: real)
    requires 0.0 < g <= DUST
    ensures Fill(Acct(2.0 * g, 2.0, 0.0, Some(1)), LegOf(Sell, g, 1.0)) == FLAT
  {
    assert 2.0 / (2.0 * g) * g == 1.0;
    assert g / g == 1.0;
  }

  /** Selling more than is held: the proceeds of the surplus are in the cash and not
      in the profit. */
  lemma OversoldIsLost()
    ensures var legs := [LegOf(Buy, 1.0, 1.0), LegOf(Sell, 2.0, 4.0)];
            && AllValued(legs) && !NeverOversold(legs)
            && Book(legs) == Acct(0.0, 0.0, 1.0, None) && Cash(legs) == 3.0 && !ConservesAt(legs, 0.0)
  {
    var a, b := LegOf(Buy, 1.0, 1.0), LegOf(Sell, 2.0, 4.0);
    TwoLegs(a, b);
    hide Book, Cash, Net, NeverOversold;
    TimesZero(Net([a, b]));
  }

  lemma {:induction false} NeverOversoldIsCovered(legs: seq<Leg>, g: real)
    requires AllValued(legs) && Grainy(legs, g) && g > DUST && NeverOversold(legs)
    ensures Covered(legs)
  {
    if |legs| > 0 {
      NeverOversoldIsCovered(legs[..|legs| - 1], g);
      CoveredStep(legs, g);
      hide Book, Covered, Multiple;
    }
  }

  /** A wallet that never sells more than it holds balances at every price, on all
      tables in units of g, if and only if g exceeds 1e-18. */
  lemma NeverOversoldConservesIff(g: real)
    requires g > 0.0
    ensures (forall legs, price :: AllValued(legs) && Grainy(legs, g) && NeverOversold(legs) ==> ConservesAt(legs, price))
       <==> g > 0.000000000000000001
  {
    hide Grainy, NeverOversold, ConservesAt, AllValued;
    if g > DUST {
      forall legs, price | AllValued(legs) && Grainy(legs, g) && NeverOversold(legs) ensures ConservesAt(legs, price) {
        NeverOversoldIsCovered(legs, g);
        FinalInGrainsIff(legs, g);
      }
    } else {
      UnitLeftIsLost(g);
    }
  }
}
