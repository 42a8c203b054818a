/** Integer facts shared by the other modules: quotients, remainders and products. */
module Numbers {

  lemma ProductsApart(q: int, r: int, n: int)
    requires q > r && n >= 1
    ensures q * n >= r * n + n
  {
    assert (q - r - 1) * n >= 0;
  }

  /** Quotient and remainder are what divides with a remainder in range. */
  lemma RemainderIs(v: int, m: int, q: int, r: int)
    requires m >= 1 && v == q * m + r && 0 <= r < m
    ensures v % m == r && v / m == q
  {
    var d := v / m;
    assert v == d * m + v % m;
    if d > q { ProductsApart(d, q, m); }
    if d < q { ProductsApart(q, d, m); }
  }

  lemma DivisionRises(x: int, y: int, n: int)
    requires n >= 1 && x <= y
    ensures x / n <= y / n
  {
    if x / n > y / n { ProductsApart(x / n, y / n, n); }
  }

  lemma MultipleDivides(i: int, n: int)
    requires n >= 1
    ensures i * n / n == i && i * n % n == 0
  {
    RemainderIs(i * n, n, i, 0);
  }

  lemma ModTwice(x: int, m: int)
    requires m >= 1
    ensures x % m % m == x % m
  {
    RemainderIs(x % m, m, 0, x % m);
  }
}
