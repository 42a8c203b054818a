/** Share and asset rounding of bots/mev_morpho_liquidator.py. */
module Morpho {
  import opened Numbers

  const VIRTUAL_ASSETS := 1
  const VIRTUAL_SHARES := 1000000
  const ORACLE_SCALE := 1000000000000000000000000000000000000
  const WAD := 1000000000000000000
  const SAFE := 1000000000000000000000000000000

  /** `(num + den - 1) // den`. */
  function CeilDiv(num: int, den: int): int
    requires den > 0
  {
    (num + den - 1) / den
  }

  /** Market totals. */
  datatype Market = Market(assets: nat, shares: nat)
  {
    function A(): (a: int)
      ensures a > 0
    {
      assets + VIRTUAL_ASSETS
    }

    function S(): (s: int)
      ensures s > 0
    {
      shares + VIRTUAL_SHARES
    }
  }

  function ToAssetsUp(shares: int, m: Market): int {
    CeilDiv(shares * m.A(), m.S())
  }

  function ToSharesUp(assets: int, m: Market): int {
    CeilDiv(assets * m.S(), m.A())
  }

  // ----- rounding up and down as inequalities

  lemma FloorIff(n: int, d: int, q: int)
    requires d > 0
    ensures q <= n / d <==> q * d <= n
  {
    var f := n / d;
    assert n == f * d + n % d;
    if q <= f {
      assert (f - q) * d >= 0;
    } else {
      ProductsApart(q, f, d);
    }
  }

  lemma CeilIff(n: int, d: int, q: int)
    requires d > 0
    ensures CeilDiv(n, d) <= q <==> n <= q * d
  {
    FloorIff(n + d - 1, d, q + 1);
    assert (q + 1) * d == q * d + d;
  }

  /** `to_shares_up(a)` is the least number of shares that are worth a when rounded down. */
  lemma SharesAreLeast(a: int, m: Market, s: int)
    ensures ToSharesUp(a, m) <= s <==> s * m.A() / m.S() >= a
  {
    hide CeilDiv;
    CeilIff(a * m.S(), m.A(), s);
    FloorIff(s * m.A(), m.S(), a);
  }

  lemma ProductRises(a: int, b: int, n: int)
    requires a <= b && n > 0
    ensures a * n <= b * n
  {
    assert (b - a) * n >= 0;
  }

  lemma SharesRise(a: int, b: int, m: Market)
    requires a <= b
    ensures ToSharesUp(a, m) <= ToSharesUp(b, m)
  {
    hide CeilDiv;
    ProductRises(a, b, m.S());
    CeilIff(a * m.S(), m.A(), ToSharesUp(b, m));
    CeilIff(b * m.S(), m.A(), ToSharesUp(b, m));
  }

  lemma AssetsRise(s: int, t: int, m: Market)
    requires s <= t
    ensures ToAssetsUp(s, m) <= ToAssetsUp(t, m)
  {
    hide CeilDiv;
    ProductRises(s, t, m.A());
    CeilIff(s * m.A(), m.S(), ToAssetsUp(t, m));
    CeilIff(t * m.A(), m.S(), ToAssetsUp(t, m));
  }

  /** Rounding up there and back: never less, and at most ceil(x / y) more. */
  lemma RoundTrip(v: int, x: int, y: int)
    requires x > 0 && y > 0
    ensures v <= CeilDiv(CeilDiv(v * y, x) * x, y) <= v + CeilDiv(x, y)
  {
    hide CeilDiv;
    var s, k := CeilDiv(v * y, x), CeilDiv(x, y);
    var back := CeilDiv(s * x, y);
    CeilIff(v * y, x, s);
    CeilIff(v * y, x, s - 1);
    CeilIff(s * x, y, v - 1);
    CeilIff(x, y, k);
    CeilIff(s * x, y, v + k);
    assert (v - 1) * y == v * y - y && (s - 1) * x == s * x - x && (v + k) * y == v * y + k * y;
  }

  /** Assets to shares to assets. */
  lemma AssetsRoundTrip(a: int, m: Market)
    ensures a <= ToAssetsUp(ToSharesUp(a, m), m) <= a + CeilDiv(m.A(), m.S())
  {
    RoundTrip(a, m.A(), m.S());
  }

  /** Shares to assets to shares: a repayment of the whole debt never asks for too few. */
  lemma SharesRoundTrip(s: int, m: Market)
    ensures s <= ToSharesUp(ToAssetsUp(s, m), m) <= s + CeilDiv(m.S(), m.A())
  {
    RoundTrip(s, m.S(), m.A());
  }

  /** It asks for exactly the shares owed if and only if their value is whole. */
  lemma FullRepayIsExactIff(s: int, m: Market)
    ensures ToSharesUp(ToAssetsUp(s, m), m) == s <==> s * m.A() % m.S() == 0
  {
    hide CeilDiv;
    var n, y, x := s * m.A(), m.S(), m.A();
    var a := ToAssetsUp(s, m);
    SharesRoundTrip(s, m);
    CeilIff(a * y, x, s);
    CeilIff(n, y, a);
    if n % y == 0 {
      CeilIff(n, y, n / y);
      assert n == n / y * y;
      ProductRises(a, n / y, y);
    } else if a * y <= n {
      RemainderIs(n, y, a, 0);
    }
  }

  // ----- the health factor

  datatype Health = Health(hf: int, borrowed: int)

  /** The integer part of `health_factor`. */
  function HealthFactor(borrowShares: nat, collateral: nat, price: nat, lltv: nat, m: Market): Health {
    if borrowShares == 0 || collateral == 0 then Health(SAFE, 0)
    else
      var borrowed := ToAssetsUp(borrowShares, m);
      var value := collateral * price / ORACLE_SCALE;
      Health(if borrowed != 0 then value * lltv / borrowed else SAFE, borrowed)
  }

  lemma DebtIsPositive(shares: nat, m: Market)
    requires shares > 0
    ensures ToAssetsUp(shares, m) > 0
  {
    CeilIff(shares * m.A(), m.S(), 0);
    hide CeilDiv;
    assert shares * m.A() >= 1;
  }

  /** What the collateral, at the market's loan-to-value rounded down, can cover. */
  function Cover(collateral: nat, price: nat, lltv: nat): int {
    collateral * price / ORACLE_SCALE * lltv / WAD
  }

  /** The factor is at least 1.0 exactly when the collateral covers the debt reported
      with it, which is 0 for a position without collateral. */
  lemma HealthyAsReported(borrowShares: nat, collateral: nat, price: nat, lltv: nat, m: Market)
    ensures var h := HealthFactor(borrowShares, collateral, price, lltv, m);
            h.hf >= WAD <==> Cover(collateral, price, lltv) >= h.borrowed
  {
    var h := HealthFactor(borrowShares, collateral, price, lltv, m);
    var value := collateral * price / ORACLE_SCALE;
    ValueIsNatural(collateral, price, lltv);
    if borrowShares != 0 && collateral != 0 {
      DebtIsPositive(borrowShares, m);
      hide ToAssetsUp;
      FloorIff(value * lltv, h.borrowed, WAD);
      FloorIff(value * lltv, WAD, h.borrowed);
    } else {
      FloorIff(value * lltv, WAD, 0);
    }
  }

  lemma NoShares(m: Market)
    ensures ToAssetsUp(0, m) == 0
  {
    CeilIff(0 * m.A(), m.S(), 0);
    CeilIff(0 * m.A(), m.S(), -1);
  }

  lemma NoCollateral(price: nat, lltv: nat)
    ensures Cover(0, price, lltv) == 0
  {
  }

  /** The factor says whether the collateral covers the debt, for every position but
      those with a debt and no collateral at all. */
  lemma HealthyIff(borrowShares: nat, collateral: nat, price: nat, lltv: nat, m: Market)
    ensures var healthy := HealthFactor(borrowShares, collateral, price, lltv, m).hf >= 1000000000000000000;
            var covered := Cover(collateral, price, lltv) >= ToAssetsUp(borrowShares, m);
            (healthy <==> covered) <==> !(borrowShares > 0 && collateral == 0)
  {
    HealthyAsReported(borrowShares, collateral, price, lltv, m);
    NoShares(m);
    NoCollateral(price, lltv);
    hide ToAssetsUp, Cover;
    if borrowShares > 0 { DebtIsPositive(borrowShares, m); }
  }

  /** Those count as safe, with no debt reported, at any price. */
  lemma BadDebtIsSafe(price: nat, lltv: nat, m: Market)
    ensures var h := HealthFactor(1, 0, price, lltv, m);
            h.hf >= WAD && h.borrowed == 0 && Cover(0, price, lltv) < ToAssetsUp(1, m)
  {
    NoCollateral(price, lltv);
    hide ToAssetsUp, Cover;
    DebtIsPositive(1, m);
  }

  lemma ValueIsNatural(collateral: nat, price: nat, lltv: nat)
    ensures collateral * price / ORACLE_SCALE * lltv >= 0
  {
    FloorIff(collateral * price, ORACLE_SCALE, 0);
    var v := collateral * price / ORACLE_SCALE;
    assert v * lltv >= 0;
  }
}
