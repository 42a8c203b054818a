/** Real arithmetic shared by the accounting modules: amounts are floats in the
    source and reals here. */
module Reals {
  /** Quantities at or below this count as nothing left. */
  const DUST: real := 0.000000000000000001

  function Min(x: real, y: real): real {
    if x <= y then x else y
  }

  function Max(x: real, y: real): real {
    if x >= y then x else y
  }

  /** A product kept by name, so that proofs about sums do not look inside. */
  function Times(x: real, y: real): real {
    x * y
  }

  function Term<K>(m: map<K, real>, k: K): real {
    if k in m then m[k] else 0.0
  }

  /** Sum of the terms at the keys `ks`; the order of a dict does not matter. */
  ghost function Sum<K(!new)>(ks: set<K>, m: map<K, real>): real {
    if ks == {} then 0.0
    else
      var k :| k in ks;
      Term(m, k) + Sum(ks - {k}, m)
  }

  /** Any key can be taken out first. */
  lemma {:induction false} SumWithout<K(!new)>(ks: set<K>, m: map<K, real>, k: K)
    requires k in ks
    ensures Sum(ks, m) == Term(m, k) + Sum(ks - {k}, m)
    decreases |ks|
  {
    hide Term;
    var j :| j in ks && Sum(ks, m) == Term(m, j) + Sum(ks - {j}, m);
    if j != k {
      var rest := ks - {j} - {k};
      SumWithout(ks - {j}, m, k);
      SumWithout(ks - {k}, m, j);
      assert ks - {k} - {j} == rest;
    }
  }

  lemma {:induction false} SumAgrees<K(!new)>(ks: set<K>, a: map<K, real>, b: map<K, real>)
    requires forall k :: k in ks ==> Term(a, k) == Term(b, k)
    ensures Sum(ks, a) == Sum(ks, b)
    decreases |ks|
  {
    hide Term;
    if ks != {} {
      var k :| k in ks;
      SumWithout(ks, a, k);
      SumWithout(ks, b, k);
      SumAgrees(ks - {k}, a, b);
    }
  }

  /** Only the term at k differs, and k may be new. */
  lemma SumChange<K(!new)>(ks: set<K>, a: map<K, real>, b: map<K, real>, k: K)
    requires forall j :: j in ks - {k} ==> Term(a, j) == Term(b, j)
    ensures Sum(ks + {k}, b) == Sum(ks, a) - (if k in ks then Term(a, k) else 0.0) + Term(b, k)
  {
    hide Term;
    SumWithout(ks + {k}, b, k);
    SumAgrees(ks - {k}, a, b);
    assert ks + {k} - {k} == ks - {k};
    if k in ks {
      SumWithout(ks, a, k);
    } else {
      assert ks - {k} == ks;
    }
  }

  lemma {:induction false} SumAdds<K(!new)>(ks: set<K>, a: map<K, real>, b: map<K, real>, c: map<K, real>)
    requires forall k :: k in ks ==> Term(a, k) + Term(b, k) == Term(c, k)
    ensures Sum(ks, a) + Sum(ks, b) == Sum(ks, c)
    decreases |ks|
  {
    hide Term;
    if ks != {} {
      var k :| k in ks;
      SumWithout(ks, a, k);
      SumWithout(ks, b, k);
      SumWithout(ks, c, k);
      SumAdds(ks - {k}, a, b, c);
    }
  }

  /** Keys whose term is zero can be left out. */
  lemma {:induction false} SumIgnoresZeros<K(!new)>(ks: set<K>, more: set<K>, m: map<K, real>)
    requires forall k :: k in more ==> Term(m, k) == 0.0
    ensures Sum(ks + more, m) == Sum(ks, m)
    decreases |more|
  {
    hide Term;
    if more - ks == {} {
      assert ks + more == ks;
    } else {
      var k :| k in more - ks;
      SumWithout(ks + more, m, k);
      SumIgnoresZeros(ks, more - {k}, m);
      assert ks + more - {k} == ks + (more - {k});
    }
  }

  // ----- amounts in whole grains

  function Grains(n: int, g: real): real {
    n as real * g
  }

  /** x is a whole number of grains. */
  ghost predicate Multiple(x: real, g: real) {
    exists n :: x == Grains(n, g)
  }

  lemma MultiplesAdd(x: real, y: real, g: real)
    requires Multiple(x, g) && Multiple(y, g)
    ensures Multiple(x + y, g) && Multiple(x - y, g)
  {
    var m :| x == Grains(m, g);
    var n :| y == Grains(n, g);
    assert x + y == Grains(m + n, g);
    assert x - y == Grains(m - n, g);
  }

  lemma SmallMultipleIsZero(x: real, g: real)
    requires Multiple(x, g) && -g < x < g
    ensures x == 0.0
  {
    var n :| x == Grains(n, g);
    GrainsAreApart(n, g);
  }

  lemma GrainsAreApart(n: int, g: real)
    requires g > 0.0
    ensures n >= 1 ==> Grains(n, g) >= g
    ensures n <= -1 ==> Grains(n, g) <= -g
    ensures n == 0 ==> Grains(n, g) == 0.0
  {
    if n >= 1 {
      assert (n - 1) as real * g >= 0.0;
    } else if n <= -1 {
      assert (-1 - n) as real * g >= 0.0;
    }
  }
}
