/** What the z-score of `rolling_zscore` says about a value and the window before it. */
module ZScores {
  import opened Options
  import opened Series

  /** A square root on the numbers that have one. */
  ghost predicate Root(sqrt: real -> real) {
    forall x :: x >= 0.0 ==> sqrt(x) >= 0.0 && sqrt(x) * sqrt(x) == x
  }

  // ----- sums and squares

  lemma TotalMore(vals: seq<real>, x: real)
    ensures Total(vals + [x]) == Total(vals) + x
  {
    assert (vals + [x])[..|vals|] == vals;
  }

  lemma SquaresMore(vals: seq<real>, x: real, m: real)
    ensures SquaresAround(vals + [x], m) == SquaresAround(vals, m) + (x - m) * (x - m)
  {
    assert (vals + [x])[..|vals|] == vals;
  }

  /** Squares around another point: the mean is where they are least. */
  lemma {:induction false} SquaresMove(vals: seq<real>, m: real, c: real)
    ensures SquaresAround(vals, c)
         == SquaresAround(vals, m) + 2.0 * (m - c) * (Total(vals) - |vals| as real * m) + |vals| as real * ((m - c) * (m - c))
  {
    if |vals| > 0 {
      var before, x := vals[..|vals| - 1], vals[|vals| - 1];
      SquaresMove(before, m, c);
      var n, t, e := |before| as real, Total(before), m - c;
      assert (x - c) * (x - c) == (x - m) * (x - m) + 2.0 * e * (x - m) + e * e;
      assert 2.0 * e * (t - n * m) + 2.0 * e * (x - m) == 2.0 * e * (t + x - (n + 1.0) * m);
      assert n * (e * e) + e * e == (n + 1.0) * (e * e);
    }
  }

  /** The squared distances add up to zero exactly when all values are the same. */
  lemma {:induction false} NoSpreadIff(vals: seq<real>, m: real)
    ensures SquaresAround(vals, m) >= 0.0
    ensures SquaresAround(vals, m) == 0.0 <==> forall i :: 0 <= i < |vals| ==> vals[i] == m
  {
    if |vals| > 0 {
      var before, x := vals[..|vals| - 1], vals[|vals| - 1];
      NoSpreadIff(before, m);
      Square(x - m);
      assert vals == before + [x];
    }
  }

  lemma Square(x: real)
    ensures x * x >= 0.0 && (x * x == 0.0 <==> x == 0.0)
  {
    if x > 0.0 {
      Product(x, x);
    } else if x < 0.0 {
      Product(-x, -x);
      assert -x * -x == x * x;
    }
  }

  lemma {:induction false} TotalOfSame(vals: seq<real>, c: real)
    requires forall i :: 0 <= i < |vals| ==> vals[i] == c
    ensures Total(vals) == |vals| as real * c
  {
    if |vals| > 0 {
      TotalOfSame(vals[..|vals| - 1], c);
      assert |vals| as real * c == (|vals| - 1) as real * c + c;
    }
  }

  // ----- the score

  lemma Quotient(x: real, y: real)
    requires y > 0.0
    ensures x / y * y == x
  {
  }

  lemma MeanIs(window: seq<real>)
    requires |window| > 0
    ensures |window| as real * Mean(window) == Total(window)
  {
    hide Total;
    Quotient(Total(window), |window| as real);
  }

  lemma RootOf(sqrt: real -> real, x: real)
    requires Root(sqrt) && x >= 0.0
    ensures sqrt(x) >= 0.0 && sqrt(x) * sqrt(x) == x
  {
  }

  lemma DeviationIs(window: seq<real>, sqrt: real -> real)
    requires |window| > 0 && Root(sqrt)
    ensures Deviation(window, sqrt) >= 0.0
    ensures |window| as real * (Deviation(window, sqrt) * Deviation(window, sqrt)) == SquaresAround(window, Mean(window))
  {
    var n, s := |window| as real, SquaresAround(window, Mean(window));
    NoSpreadIff(window, Mean(window));
    hide SquaresAround, Mean, Root;
    NonNegative(s, n);
    RootOf(sqrt, s / n);
    Quotient(s, n);
    assert Deviation(window, sqrt) == sqrt(s / n);
    hide Deviation;
  }

  lemma NonNegative(x: real, y: real)
    requires x >= 0.0 && y > 0.0
    ensures x / y >= 0.0
  {
  }

  /** The score exists from three values on. It is 0 when the window does not vary, and
      otherwise the distance of the value from the mean in standard deviations. */
  lemma ScoreIs(window: seq<real>, v: real, sqrt: real -> real)
    requires Root(sqrt)
    ensures ZScore(window, v, sqrt).Some? <==> |window| >= 3
    ensures |window| >= 3 ==>
              var n, mean, sd, z := |window| as real, Mean(window), Deviation(window, sqrt), ZScore(window, v, sqrt).value;
              && n * mean == Total(window) && sd >= 0.0 && n * (sd * sd) == SquaresAround(window, mean)
              && (sd == 0.0 ==> z == 0.0) && (sd > 0.0 ==> v == mean + z * sd)
  {
    if |window| >= 3 {
      MeanIs(window);
      DeviationIs(window, sqrt);
      hide Mean, Deviation, Total, SquaresAround;
      if Deviation(window, sqrt) > 0.0 { Quotient(v - Mean(window), Deviation(window, sqrt)); }
    }
  }

  ghost predicate Varies(window: seq<real>) {
    exists i, j :: 0 <= i < j < |window| && window[i] != window[j]
  }

  /** A standard deviation of 0 is a window of one value. */
  lemma VariesIff(window: seq<real>, sqrt: real -> real)
    requires |window| > 0 && Root(sqrt)
    ensures Deviation(window, sqrt) > 0.0 <==> Varies(window)
  {
    DeviationIs(window, sqrt);
    NoSpreadIff(window, Mean(window));
    hide Deviation, SquaresAround, Root;
    Square(Deviation(window, sqrt));
    if !Varies(window) {
      forall i | 0 <= i < |window| ensures window[i] == window[0] {}
      TotalOfSame(window, window[0]);
      SameMean(window);
    }
    hide Mean;
    Product(|window| as real, Deviation(window, sqrt) * Deviation(window, sqrt));
  }

  lemma SameMean(window: seq<real>)
    requires |window| > 0 && Total(window) == |window| as real * window[0]
    ensures Mean(window) == window[0]
  {
    hide Total;
    assert |window| as real * window[0] / |window| as real == window[0];
  }

  lemma Product(x: real, y: real)
    requires x > 0.0
    ensures x * y == 0.0 <==> y == 0.0
    ensures y > 0.0 <==> x * y > 0.0
    ensures y < 0.0 <==> x * y < 0.0
  {
  }

  lemma SideOfMean(n: real, mean: real, sd: real, z: real, v: real)
    requires n > 0.0 && sd > 0.0 && v == mean + z * sd
    ensures (z > 0.0 <==> n * v > n * mean) && (z < 0.0 <==> n * v < n * mean)
  {
    Product(sd, z);
    Product(n, v - mean);
    assert n * (v - mean) == n * v - n * mean;
  }

  /** Against a window that varies the score is positive exactly above the mean,
      negative exactly below it. */
  lemma ScoreSign(window: seq<real>, v: real, sqrt: real -> real)
    requires |window| >= 3 && Root(sqrt) && Varies(window)
    ensures var z := ZScore(window, v, sqrt).value;
            && (z > 0.0 <==> |window| as real * v > Total(window))
            && (z < 0.0 <==> |window| as real * v < Total(window))
  {
    hide *;
    ScoreIs(window, v, sqrt);
    VariesIff(window, sqrt);
    SideOfMean(|window| as real, Mean(window), Deviation(window, sqrt), ZScore(window, v, sqrt).value, v);
  }

  /** A score that is not 0 tells the side of the mean. */
  lemma ScoreTells(window: seq<real>, v: real, sqrt: real -> real)
    requires |window| >= 3 && Root(sqrt)
    ensures var z := ZScore(window, v, sqrt).value;
            && (z > 0.0 ==> |window| as real * v > Total(window)) && (z < 0.0 ==> |window| as real * v < Total(window))
  {
    ScoreIs(window, v, sqrt);
    VariesIff(window, sqrt);
    if Varies(window) { ScoreSign(window, v, sqrt); }
  }

  /** It rises strictly with the value. */
  lemma ScoreRises(window: seq<real>, v: real, w: real, sqrt: real -> real)
    requires |window| >= 3 && Root(sqrt) && Varies(window) && v < w
    ensures ZScore(window, v, sqrt).value < ZScore(window, w, sqrt).value
  {
    ScoreIs(window, v, sqrt);
    ScoreIs(window, w, sqrt);
    VariesIff(window, sqrt);
    hide ZScore, Deviation, Mean, Total, SquaresAround, Varies, Root;
    var sd, y, z := Deviation(window, sqrt), ZScore(window, v, sqrt).value, ZScore(window, w, sqrt).value;
    Product(sd, z - y);
    assert sd * (z - y) == z * sd - y * sd;
  }

  function Shifted(vals: seq<real>, c: real): seq<real> {
    seq(|vals|, i requires 0 <= i < |vals| => vals[i] + c)
  }

  lemma ShiftedMore(vals: seq<real>, x: real, c: real)
    ensures Shifted(vals + [x], c) == Shifted(vals, c) + [x + c]
  {
  }

  lemma {:induction false} ShiftedTotal(vals: seq<real>, c: real)
    ensures Total(Shifted(vals, c)) == Total(vals) + |vals| as real * c
  {
    if |vals| > 0 {
      var before, x := vals[..|vals| - 1], vals[|vals| - 1];
      assert vals == before + [x];
      ShiftedTotal(before, c);
      ShiftedMore(before, x, c);
      hide Shifted;
      TotalMore(Shifted(before, c), x + c);
      assert |vals| as real * c == |before| as real * c + c;
    }
  }

  lemma {:induction false} ShiftedSquares(vals: seq<real>, c: real, m: real)
    ensures SquaresAround(Shifted(vals, c), m + c) == SquaresAround(vals, m)
  {
    if |vals| > 0 {
      var before, x := vals[..|vals| - 1], vals[|vals| - 1];
      assert vals == before + [x];
      ShiftedSquares(before, c, m);
      ShiftedMore(before, x, c);
      SquaresMore(before, x, m);
      SquaresMore(Shifted(before, c), x + c, m + c);
      hide Shifted, SquaresAround;
      assert x + c - (m + c) == x - m;
    }
  }

  /** Only differences matter: one constant added to all values leaves the score alone. */
  lemma ScoreShifts(window: seq<real>, v: real, c: real, sqrt: real -> real)
    ensures ZScore(Shifted(window, c), v + c, sqrt) == ZScore(window, v, sqrt)
  {
    if |window| >= 3 {
      ShiftedSquares(window, c, Mean(window));
      ShiftedMean(window, c);
      hide Shifted, Total, SquaresAround, Mean;
    }
  }

  lemma ShiftedMean(window: seq<real>, c: real)
    requires |window| > 0
    ensures Mean(Shifted(window, c)) == Mean(window) + c
  {
    ShiftedTotal(window, c);
    MeanIs(window);
    MeanIs(Shifted(window, c));
    hide Total, Mean;
    var n := |window| as real;
    assert n * (Mean(Shifted(window, c)) - (Mean(window) + c)) == n * Mean(Shifted(window, c)) - n * Mean(window) - n * c;
    Product(n, Mean(Shifted(window, c)) - (Mean(window) + c));
  }

  /** After 90, 110, 90, 110 a value of 20 scores -8 and a value of 180 scores 8. */
  lemma FallAndRise(sqrt: real -> real)
    requires Root(sqrt)
    ensures ZScore([90.0, 110.0, 90.0, 110.0], 20.0, sqrt) == Some(-8.0)
    ensures ZScore([90.0, 110.0, 90.0, 110.0], 180.0, sqrt) == Some(8.0)
  {
    var w := [90.0, 110.0, 90.0, 110.0];
    FourSums();
    hide Total, SquaresAround;
    assert Mean(w) == 100.0;
    TenIsRoot(sqrt);
    assert Deviation(w, sqrt) == 10.0;
  }

  lemma FourSums()
    ensures Total([90.0, 110.0, 90.0, 110.0]) == 400.0 && SquaresAround([90.0, 110.0, 90.0, 110.0], 100.0) == 400.0
  {
    assert [90.0, 110.0, 90.0, 110.0][..3] == [90.0, 110.0, 90.0] && [90.0, 110.0, 90.0][..2] == [90.0, 110.0];
    assert [90.0, 110.0][..1] == [90.0] && [90.0][..0] == [];
    assert Total([90.0]) == 90.0 && Total([90.0, 110.0]) == 200.0 && Total([90.0, 110.0, 90.0]) == 290.0;
    assert SquaresAround([90.0], 100.0) == 100.0 && SquaresAround([90.0, 110.0], 100.0) == 200.0;
    assert SquaresAround([90.0, 110.0, 90.0], 100.0) == 300.0;
  }

  lemma TenIsRoot(sqrt: real -> real)
    requires Root(sqrt)
    ensures sqrt(100.0) == 10.0
  {
    var s := sqrt(100.0);
    RootOf(sqrt, 100.0);
    hide Root;
    assert (s + 10.0) * (s - 10.0) == s * s - 100.0;
    Product(s + 10.0, s - 10.0);
  }
}
