/**
 The deterministic trend forecast: a least-squares line over the bucket index, a smoothed level,
 and from both a confidence and a time to threshold. Arithmetic is over exact reals.
 */
module Forecast {

  // ------------------------------------------------------------------ finite sums

  function Sum(f: nat -> real, n: nat): real {
    if n == 0 then 0.0 else Sum(f, n - 1) + f(n - 1)
  }

  lemma {:induction false} SumCombines(f: nat -> real, g: nat -> real, h: nat -> real, a: real, b: real, n: nat)
    requires forall i: nat :: i < n ==> h(i) == a * f(i) + b * g(i)
    ensures Sum(h, n) == a * Sum(f, n) + b * Sum(g, n)
  {
    if n > 0 {
      SumCombines(f, g, h, a, b, n - 1);
    }
  }

  lemma {:induction false} SumPlus(f: nat -> real, g: nat -> real, h: nat -> real, n: nat)
    requires forall i: nat :: i < n ==> h(i) == f(i) + g(i)
    ensures Sum(h, n) == Sum(f, n) + Sum(g, n)
  {
    if n > 0 {
      SumPlus(f, g, h, n - 1);
    }
  }

  /** A sum of non-negative terms is non-negative, and zero only if every term is. */
  lemma {:induction false} SumNonNegative(f: nat -> real, n: nat)
    requires forall i: nat :: i < n ==> f(i) >= 0.0
    ensures Sum(f, n) >= 0.0
    ensures Sum(f, n) == 0.0 <==> forall i: nat :: i < n ==> f(i) == 0.0
  {
    if n > 0 {
      SumNonNegative(f, n - 1);
      assert (forall i: nat :: i < n ==> f(i) == 0.0)
        <==> (forall i: nat :: i < n - 1 ==> f(i) == 0.0) && f(n - 1) == 0.0;
    }
  }

  // ------------------------------------------------------------------ the terms being summed

  function Times(p: real, q: real): real { p * q }

  function At(y: seq<real>, i: nat): real { if i < |y| then y[i] else 0.0 }

  function One(): nat -> real { (i: nat) => 1.0 }

  function X(): nat -> real { (i: nat) => i as real }

  function XX(): nat -> real { (i: nat) => Times(i as real, i as real) }

  function Y(y: seq<real>): nat -> real { (i: nat) => At(y, i) }

  function XY(y: seq<real>): nat -> real { (i: nat) => Times(i as real, At(y, i)) }

  function LineAt(a: real, b: real, i: nat): real { Times(a, i as real) + b }

  /** The distance of point `i` from the line with slope `a` and intercept `b`. */
  function ResidualAt(y: seq<real>, a: real, b: real, i: nat): real { At(y, i) - LineAt(a, b, i) }

  function Line(a: real, b: real): nat -> real { (i: nat) => LineAt(a, b, i) }

  function XLine(a: real, b: real): nat -> real { (i: nat) => Times(i as real, LineAt(a, b, i)) }

  function Residual(y: seq<real>, a: real, b: real): nat -> real { (i: nat) => ResidualAt(y, a, b, i) }

  function XResidual(y: seq<real>, a: real, b: real): nat -> real {
    (i: nat) => Times(i as real, ResidualAt(y, a, b, i))
  }

  function Squares(y: seq<real>, a: real, b: real): nat -> real {
    (i: nat) => Times(ResidualAt(y, a, b, i), ResidualAt(y, a, b, i))
  }

  function LineSquares(a: real, b: real): nat -> real {
    (i: nat) => Times(LineAt(a, b, i), LineAt(a, b, i))
  }

  /** The squared error of a line over the whole series. */
  function Error(y: seq<real>, a: real, b: real): real {
    Sum(Squares(y, a, b), |y|)
  }

  function Mean(y: seq<real>): real
    requires |y| > 0
  {
    Sum(Y(y), |y|) / |y| as real
  }

  function Den(n: real, sx: real, sxx: real): real { n * sxx - sx * sx }

  function SlopeFrom(n: real, sx: real, sy: real, sxx: real, sxy: real): real
    requires Den(n, sx, sxx) != 0.0
  {
    (n * sxy - sx * sy) / Den(n, sx, sxx)
  }

  function InterceptFrom(n: real, sx: real, sy: real, slope: real): real
    requires n != 0.0
  {
    (sy - slope * sx) / n
  }

  function FitFrom(ssr: real, sst: real): real {
    if sst == 0.0 then 1.0 else 1.0 - ssr / sst
  }

  function Denominator(n: nat): real {
    Den(n as real, Sum(X(), n), Sum(XX(), n))
  }

  lemma {:induction false} IndexSums(n: nat)
    ensures Sum(One(), n) == n as real
    ensures 2.0 * Sum(X(), n) == n as real * (n as real - 1.0)
    ensures 6.0 * Sum(XX(), n) == (n as real - 1.0) * n as real * (2.0 * n as real - 1.0)
  {
    if n > 0 {
      IndexSums(n - 1);
      assert (n - 1) as real == n as real - 1.0;
    }
  }

  /** The denominator has a closed form; it vanishes only below two points. */
  lemma DenominatorPositive(n: nat)
    ensures 12.0 * Denominator(n) == n as real * n as real * (n as real - 1.0) * (n as real + 1.0)
    ensures Denominator(n) > 0.0 <==> n >= 2
  {
    IndexSums(n);
    var r, sx, sxx := n as real, Sum(X(), n), Sum(XX(), n);
    assert 12.0 * (sx * sx) == 3.0 * (2.0 * sx) * (2.0 * sx);
    assert 12.0 * (r * sxx) == 2.0 * r * (6.0 * sxx);
    PolynomialIdentity(r);
    if n >= 2 {
      assert r * r >= 4.0;
      assert (r - 1.0) * (r + 1.0) >= 3.0;
      assert r * r * ((r - 1.0) * (r + 1.0)) > 0.0;
      assert r * r * (r - 1.0) * (r + 1.0) == r * r * ((r - 1.0) * (r + 1.0));
    }
  }

  lemma EnoughPoints(n: nat)
    requires n >= 2
    ensures Denominator(n) > 0.0
  {
    DenominatorPositive(n);
  }

  lemma PolynomialIdentity(r: real)
    ensures 2.0 * r * ((r - 1.0) * r * (2.0 * r - 1.0)) - 3.0 * (r * (r - 1.0)) * (r * (r - 1.0))
         == r * r * (r - 1.0) * (r + 1.0)
  {
  }

  // ------------------------------------------------------------------ the fit

  function Slope(y: seq<real>): real {
    var n := |y|;
    if n < 2 || Denominator(n) == 0.0 then 0.0
    else SlopeFrom(n as real, Sum(X(), n), Sum(Y(y), n), Sum(XX(), n), Sum(XY(y), n))
  }

  function Intercept(y: seq<real>): real
    requires |y| > 0
  {
    InterceptFrom(|y| as real, Sum(X(), |y|), Sum(Y(y), |y|), Slope(y))
  }

  function RSquared(y: seq<real>): real {
    if |y| < 2 || Denominator(|y|) == 0.0 then 0.0
    else FitFrom(Error(y, Slope(y), Intercept(y)), Error(y, 0.0, Mean(y)))
  }

  method Moments(y: seq<real>) returns (sx: real, sy: real, sxx: real, sxy: real)
    ensures sx == Sum(X(), |y|) && sy == Sum(Y(y), |y|)
    ensures sxx == Sum(XX(), |y|) && sxy == Sum(XY(y), |y|)
  {
    hide Times;
    sx, sy, sxx, sxy := 0.0, 0.0, 0.0, 0.0;
    for i := 0 to |y|
      invariant sx == Sum(X(), i) && sy == Sum(Y(y), i)
      invariant sxx == Sum(XX(), i) && sxy == Sum(XY(y), i)
    {
      sx := sx + i as real;
      sy := sy + y[i];
      sxx := sxx + Times(i as real, i as real);
      sxy := sxy + Times(i as real, y[i]);
    }
  }

  method Errors(y: seq<real>, slope: real, intercept: real, mean: real) returns (ssr: real, sst: real)
    ensures ssr == Error(y, slope, intercept) && sst == Error(y, 0.0, mean)
  {
    hide Times;
    ssr, sst := 0.0, 0.0;
    for i := 0 to |y|
      invariant ssr == Sum(Squares(y, slope, intercept), i)
      invariant sst == Sum(Squares(y, 0.0, mean), i)
    {
      var pred := Times(slope, i as real) + intercept;
      ssr := ssr + Times(y[i] - pred, y[i] - pred);
      assert ResidualAt(y, 0.0, mean, i) == y[i] - mean by {
        ProductSign(0.0, i as real);
      }
      sst := sst + Times(y[i] - mean, y[i] - mean);
    }
  }

  method LeastSquares(y: seq<real>) returns (slope: real, r2: real)
    ensures slope == Slope(y) && r2 == RSquared(y)
  {
    if |y| < 2 {
      return 0.0, 0.0;
    }
    hide Sum, X, Y, XX, XY, Error, Den, SlopeFrom, InterceptFrom, FitFrom;
    var n := |y| as real;
    var sx, sy, sxx, sxy := Moments(y);
    if Den(n, sx, sxx) == 0.0 {
      return 0.0, 0.0;
    }
    slope := SlopeFrom(n, sx, sy, sxx, sxy);
    var intercept := InterceptFrom(n, sx, sy, slope);
    var ssr, sst := Errors(y, slope, intercept, sy / n);
    r2 := FitFrom(ssr, sst);
  }

  /** Summing a line's residuals, plain and weighted by the index. */
  lemma ResidualSums(y: seq<real>, a: real, b: real)
    ensures Sum(Residual(y, a, b), |y|) == Sum(Y(y), |y|) - a * Sum(X(), |y|) - b * |y| as real
    ensures Sum(XResidual(y, a, b), |y|) == Sum(XY(y), |y|) - a * Sum(XX(), |y|) - b * Sum(X(), |y|)
  {
    hide X, Y, XX, XY, Line, XLine, Residual, XResidual, Sum;
    var n := |y|;
    ResidualPoints(y, a, b);
    LineSums(a, b, n);
    SumPlus(Residual(y, a, b), Line(a, b), Y(y), n);
    SumPlus(XResidual(y, a, b), XLine(a, b), XY(y), n);
  }

  lemma ResidualPoints(y: seq<real>, a: real, b: real)
    ensures forall i: nat :: Y(y)(i) == Residual(y, a, b)(i) + Line(a, b)(i)
    ensures forall i: nat :: XY(y)(i) == XResidual(y, a, b)(i) + XLine(a, b)(i)
  {
    hide Times;
    forall i: nat ensures XY(y)(i) == XResidual(y, a, b)(i) + XLine(a, b)(i) {
      Distribute(i as real, At(y, i), LineAt(a, b, i));
    }
  }

  lemma Distribute(x: real, v: real, t: real)
    ensures Times(x, v) == Times(x, v - t) + Times(x, t)
  {
  }

  lemma LinePoints(a: real, b: real)
    ensures forall i: nat :: Line(a, b)(i) == a * X()(i) + b * One()(i)
    ensures forall i: nat :: XLine(a, b)(i) == a * XX()(i) + b * X()(i)
  {
    hide Times;
    forall i: nat
      ensures Line(a, b)(i) == a * X()(i) + b * One()(i)
      ensures XLine(a, b)(i) == a * XX()(i) + b * X()(i)
    {
      Unfold(a, i as real);
      Spread(i as real, a, b);
    }
  }

  lemma Spread(x: real, a: real, b: real)
    ensures Times(x, Times(a, x) + b) == a * Times(x, x) + b * x
  {
  }

  lemma LineSums(a: real, b: real, n: nat)
    ensures Sum(Line(a, b), n) == a * Sum(X(), n) + b * n as real
    ensures Sum(XLine(a, b), n) == a * Sum(XX(), n) + b * Sum(X(), n)
  {
    hide X, XX, Line, XLine, One, Sum;
    LinePoints(a, b);
    CountOnes(n);
    SumCombines(X(), One(), Line(a, b), a, b, n);
    SumCombines(XX(), X(), XLine(a, b), a, b, n);
  }

  lemma CountOnes(n: nat)
    ensures Sum(One(), n) == n as real
  {
    IndexSums(n);
  }

  /** The fit solves the normal equations: residuals sum to zero and are orthogonal to the index. */
  lemma NormalEquations(y: seq<real>)
    requires |y| >= 2
    ensures Sum(Residual(y, Slope(y), Intercept(y)), |y|) == 0.0
    ensures Sum(XResidual(y, Slope(y), Intercept(y)), |y|) == 0.0
  {
    hide Sum, X, Y, XX, XY, Residual, XResidual, Den, SlopeFrom, InterceptFrom;
    EnoughPoints(|y|);
    ResidualSums(y, Slope(y), Intercept(y));
    SolvesNormal(|y| as real, Sum(X(), |y|), Sum(Y(y), |y|), Sum(XX(), |y|), Sum(XY(y), |y|));
  }

  lemma SolvesNormal(n: real, sx: real, sy: real, sxx: real, sxy: real)
    requires n > 0.0 && Den(n, sx, sxx) > 0.0
    ensures var s := SlopeFrom(n, sx, sy, sxx, sxy);
            var c := InterceptFrom(n, sx, sy, s);
            sy - s * sx - c * n == 0.0 && sxy - s * sxx - c * sx == 0.0
  {
    var den := Den(n, sx, sxx);
    var s := SlopeFrom(n, sx, sy, sxx, sxy);
    var c := InterceptFrom(n, sx, sy, s);
    assert s * den == n * sxy - sx * sy;
    assert c * n == sy - s * sx;
    var w := sxy - s * sxx - c * sx;
    assert n * w == n * sxy - s * (n * sxx) - (c * n) * sx by {
      assert n * (s * sxx) == s * (n * sxx);
      assert n * (c * sx) == (c * n) * sx;
    }
    assert (c * n) * sx == sy * sx - s * (sx * sx);
    assert s * (n * sxx) - s * (sx * sx) == s * den;
    assert n * w == 0.0;
  }

  /** How much worse another line is: exactly the squared distance between the two lines. */
  lemma ErrorGap(y: seq<real>, a: real, b: real)
    requires |y| >= 2
    ensures Error(y, a, b)
         == Error(y, Slope(y), Intercept(y)) + Sum(LineSquares(Slope(y) - a, Intercept(y) - b), |y|)
  {
    hide Slope, Intercept, Sum, Squares, LineSquares, Residual, XResidual;
    var s, c := Slope(y), Intercept(y);
    NormalEquations(y);
    GapPoints(y, s, c, a, b);
    SumCombines(XResidual(y, s, c), Residual(y, s, c), Cross(y, s, c, a, b), 2.0 * (s - a), 2.0 * (c - b), |y|);
    assert Sum(Cross(y, s, c, a, b), |y|) == 0.0;
    SumPlus(Cross(y, s, c, a, b), LineSquares(s - a, c - b), Gap(y, s, c, a, b), |y|);
    SumPlus(Squares(y, s, c), Gap(y, s, c, a, b), Squares(y, a, b), |y|);
  }

  function Cross(y: seq<real>, s: real, c: real, a: real, b: real): nat -> real {
    (i: nat) => CrossAt(y, s, c, a, b, i)
  }

  function CrossAt(y: seq<real>, s: real, c: real, a: real, b: real, i: nat): real {
    2.0 * (s - a) * Times(i as real, ResidualAt(y, s, c, i)) + 2.0 * (c - b) * ResidualAt(y, s, c, i)
  }

  function Gap(y: seq<real>, s: real, c: real, a: real, b: real): nat -> real {
    (i: nat) => CrossAt(y, s, c, a, b, i) + Times(LineAt(s - a, c - b, i), LineAt(s - a, c - b, i))
  }

  lemma GapPoints(y: seq<real>, s: real, c: real, a: real, b: real)
    ensures forall i: nat :: Squares(y, a, b)(i) == Squares(y, s, c)(i) + Gap(y, s, c, a, b)(i)
    ensures forall i: nat :: Gap(y, s, c, a, b)(i) == Cross(y, s, c, a, b)(i) + LineSquares(s - a, c - b)(i)
    ensures forall i: nat ::
      Cross(y, s, c, a, b)(i) == 2.0 * (s - a) * XResidual(y, s, c)(i) + 2.0 * (c - b) * Residual(y, s, c)(i)
  {
    hide Times;
    forall i: nat ensures Squares(y, a, b)(i) == Squares(y, s, c)(i) + Gap(y, s, c, a, b)(i) {
      var r := ResidualAt(y, s, c, i);
      LineDifference(i as real, s, c, a, b);
      assert ResidualAt(y, a, b, i) == r + LineAt(s - a, c - b, i);
      Square(r, i as real, s - a, c - b);
    }
  }

  lemma LineDifference(x: real, s: real, c: real, a: real, b: real)
    ensures Times(s - a, x) + (c - b) == (Times(s, x) + c) - (Times(a, x) + b)
  {
  }

  lemma Square(r: real, x: real, da: real, db: real)
    ensures var t := Times(da, x) + db;
            Times(r + t, r + t) == Times(r, r) + (2.0 * da * Times(x, r) + 2.0 * db * r + Times(t, t))
  {
    var t := da * x + db;
    assert Times(r + t, r + t) == Times(r, r) + 2.0 * (r * t) + Times(t, t);
    assert r * t == da * (x * r) + db * r;
  }

  /** The fit is the one line of least squared error. */
  lemma FitIsOptimal(y: seq<real>, a: real, b: real)
    requires |y| >= 2
    ensures Error(y, Slope(y), Intercept(y)) <= Error(y, a, b)
    ensures Error(y, Slope(y), Intercept(y)) == Error(y, a, b) <==> a == Slope(y) && b == Intercept(y)
  {
    hide Slope, Intercept, Error, Sum;
    ErrorGap(y, a, b);
    LineVanishes(Slope(y) - a, Intercept(y) - b, |y|);
  }

  /** A line is zero at two points or more only if it is the zero line. */
  lemma LineVanishes(a: real, b: real, n: nat)
    requires n >= 2
    ensures Sum(LineSquares(a, b), n) >= 0.0
    ensures Sum(LineSquares(a, b), n) == 0.0 <==> a == 0.0 && b == 0.0
  {
    hide Times;
    var q := LineSquares(a, b);
    forall i: nat ensures q(i) >= 0.0 && (q(i) == 0.0 <==> LineAt(a, b, i) == 0.0) {
      SquareZero(LineAt(a, b, i));
    }
    SumNonNegative(q, n);
    OneTimes(a);
    assert LineAt(a, b, 0) == b && LineAt(a, b, 1) == a + b;
    assert q(0) == 0.0 && q(1) == 0.0 ==> a == 0.0 && b == 0.0;
    forall i: nat ensures a == 0.0 && b == 0.0 ==> LineAt(a, b, i) == 0.0 {
      ProductSign(a, i as real);
    }
  }

  lemma OneTimes(a: real)
    ensures Times(a, 1.0) == a && Times(a, 0.0) == 0.0
  {
  }

  /** Every point lies on one line. */
  predicate OnLine(y: seq<real>, a: real, b: real) {
    forall i :: 0 <= i < |y| ==> y[i] == LineAt(a, b, i)
  }

  lemma ProductSign(p: real, q: real)
    ensures p > 0.0 && q > 0.0 ==> Times(p, q) > 0.0
    ensures p < 0.0 && q < 0.0 ==> Times(p, q) > 0.0
    ensures p == 0.0 ==> Times(p, q) == 0.0
  {
    if p < 0.0 && q < 0.0 {
      var m, n := -p, -q;
      assert m * n > 0.0;
    }
  }

  lemma SquareZero(x: real)
    ensures Times(x, x) >= 0.0
    ensures Times(x, x) == 0.0 <==> x == 0.0
  {
    hide Times;
    ProductSign(x, x);
  }

  lemma ErrorZero(y: seq<real>, a: real, b: real)
    ensures Error(y, a, b) >= 0.0
    ensures Error(y, a, b) == 0.0 <==> OnLine(y, a, b)
  {
    hide Times;
    var q := Squares(y, a, b);
    forall i: nat ensures q(i) >= 0.0 && (q(i) == 0.0 <==> ResidualAt(y, a, b, i) == 0.0) {
      SquareZero(ResidualAt(y, a, b, i));
    }
    SumNonNegative(q, |y|);
    forall i: nat | i < |y| ensures q(i) == 0.0 <==> y[i] == LineAt(a, b, i) {
    }
    assert (forall i: nat :: i < |y| ==> q(i) == 0.0) ==> OnLine(y, a, b);
  }

  lemma Unfold(p: real, q: real)
    ensures Times(p, q) == p * q
  {
  }

  /** Goodness of fit lies in [0, 1], and is 1 exactly for points on a line. */
  lemma RSquaredRange(y: seq<real>)
    requires |y| >= 2
    ensures 0.0 <= RSquared(y) <= 1.0
    ensures RSquared(y) == 1.0 <==> OnLine(y, Slope(y), Intercept(y))
  {
    DenominatorPositive(|y|);
    var sst, ssr := Error(y, 0.0, Mean(y)), Error(y, Slope(y), Intercept(y));
    FitIsOptimal(y, 0.0, Mean(y));
    ErrorZero(y, Slope(y), Intercept(y));
    if sst != 0.0 {
      Ratio(ssr, sst);
    }
  }

  lemma Ratio(p: real, q: real)
    requires 0.0 <= p <= q && q > 0.0
    ensures 0.0 <= 1.0 - p / q <= 1.0
    ensures 1.0 - p / q == 1.0 <==> p == 0.0
  {
    assert p / q * q == p;
    assert q / q == 1.0;
  }

  /** A perfectly linear series gets its own slope back, with r2 equal to 1. */
  lemma LinearSeries(y: seq<real>, a: real, b: real)
    requires |y| >= 2 && OnLine(y, a, b)
    ensures Slope(y) == a && Intercept(y) == b && RSquared(y) == 1.0
  {
    ErrorZero(y, a, b);
    ErrorZero(y, Slope(y), Intercept(y));
    FitIsOptimal(y, a, b);
    RSquaredRange(y);
  }

  // ------------------------------------------------------------------ smoothing

  function Smoothed(y: seq<real>, alpha: real): real {
    if y == [] then 0.0
    else if |y| == 1 then y[0]
    else alpha * y[|y| - 1] + (1.0 - alpha) * Smoothed(y[..|y| - 1], alpha)
  }

  method Ewma(y: seq<real>, alpha: real) returns (e: real)
    ensures e == Smoothed(y, alpha)
  {
    if |y| == 0 {
      return 0.0;
    }
    e := y[0];
    for i := 1 to |y|
      invariant e == Smoothed(y[..i], alpha)
    {
      assert y[..i + 1][..i] == y[..i];
      e := alpha * y[i] + (1.0 - alpha) * e;
    }
    assert y[..|y|] == y;
  }

  /** The smoothed level stays within any bounds of the series. */
  lemma {:induction false} SmoothedWithin(y: seq<real>, alpha: real, lo: real, hi: real)
    requires y != [] && 0.0 <= alpha <= 1.0
    requires forall i :: 0 <= i < |y| ==> lo <= y[i] <= hi
    ensures lo <= Smoothed(y, alpha) <= hi
  {
    if |y| > 1 {
      SmoothedWithin(y[..|y| - 1], alpha, lo, hi);
      var v, e := y[|y| - 1], Smoothed(y[..|y| - 1], alpha);
      assert forall i :: 0 <= i < |y| - 1 ==> y[..|y| - 1][i] == y[i];
      Blend(alpha, v, e, lo, hi);
    }
  }

  lemma Product(p: real, q: real)
    requires p >= 0.0 && q >= 0.0
    ensures p * q >= 0.0
  {
  }

  lemma Blend(alpha: real, v: real, e: real, lo: real, hi: real)
    requires 0.0 <= alpha <= 1.0 && lo <= v <= hi && lo <= e <= hi
    ensures lo <= alpha * v + (1.0 - alpha) * e <= hi
  {
    var beta := 1.0 - alpha;
    Product(alpha, v - lo);
    Product(alpha, hi - v);
    Product(beta, e - lo);
    Product(beta, hi - e);
    assert alpha * lo + beta * lo == lo && alpha * hi + beta * hi == hi;
  }

  // ------------------------------------------------------------------ the forecast

  datatype Level = Stable | Rising | Falling | Volatile

  /** `eta` counts buckets; `hit` says the threshold is met within a day. */
  datatype Forecast = Forecast(slope: real, level: real, trend: Level, confidence: int, eta: real, hit: bool)

  datatype Result = Ok(forecast: Forecast) | TooFewBuckets

  const DAY: nat := 86_400_000_000_000
  const ALPHA := 0.4

  function Abs(x: real): real { if x < 0.0 then -x else x }

  function Clamp(v: int, lo: int, hi: int): int {
    if v < lo then lo else if v > hi then hi else v
  }

  predicate Agrees(rise: real, slope: real) { rise * slope >= 0.0 }

  function FitPoints(r2: real): int {
    ((if r2 > 0.0 then r2 else 0.0) * 50.0).Floor
  }

  /** The slope relative to the metric's own size. */
  function Strength(slope: real, level: real): real {
    Abs(slope) / (if Abs(level) > 1.0 then Abs(level) else 1.0)
  }

  function Need(slope: real, level: real, threshold: real): real
    requires slope != 0.0
  {
    (threshold - level) / slope
  }

  predicate WithinDay(buckets: real, window: nat) { (buckets * window as real).Floor <= DAY }

  /** Confidence as summed up, before clamping. */
  function RawConfidence(y: seq<real>): int
    requires y != []
  {
    (if |y| >= 8 then 30 else |y| * 3)
    + FitPoints(RSquared(y))
    + (if Agrees(y[|y| - 1] - y[0], Slope(y)) then 20 else 0)
  }

  function TrendOf(slope: real, level: real, r2: real): Level {
    if Strength(slope, level) < 0.02 then Stable
    else if r2 < 0.1 then Volatile
    else if slope > 0.0 then Rising
    else Falling
  }

  /** Buckets until the projection meets the threshold, and whether that is within a day. */
  function Projection(slope: real, level: real, threshold: real, window: nat): (real, bool) {
    if slope > 0.0 && threshold > level then
      var need := Need(slope, level, threshold);
      (need, WithinDay(need, window))
    else (0.0, level >= threshold)
  }

  function ForecastOf(y: seq<real>, threshold: real, window: nat): Result {
    if |y| < 3 then TooFewBuckets
    else
      var level := Smoothed(y, ALPHA);
      var (eta, hit) := Projection(Slope(y), level, threshold, window);
      Ok(Forecast(Slope(y), level, TrendOf(Slope(y), level, RSquared(y)),
                  Clamp(RawConfidence(y), 0, 100), eta, hit))
  }

  method ForecastMetric(y: seq<real>, threshold: real, window: nat) returns (res: Result)
    ensures res == ForecastOf(y, threshold, window)
  {
    if |y| < 3 {
      return TooFewBuckets;
    }
    hide Slope, RSquared, Smoothed, Strength, Need, WithinDay, Agrees, FitPoints;
    var slope, r2 := LeastSquares(y);
    var e := Ewma(y, ALPHA);
    var trend;
    if Strength(slope, e) < 0.02 {
      trend := Stable;
    } else if slope > 0.0 {
      trend := Rising;
    } else {
      trend := Falling;
    }
    if r2 < 0.1 && Strength(slope, e) >= 0.02 {
      trend := Volatile;
    }
    var conf := 0;
    if |y| >= 8 {
      conf := conf + 30;
    } else {
      conf := conf + |y| * 3;
    }
    conf := conf + FitPoints(r2);
    if Agrees(y[|y| - 1] - y[0], slope) {
      conf := conf + 20;
    }
    var eta, hit := 0.0, false;
    if slope > 0.0 && threshold > e {
      eta := Need(slope, e, threshold);
      hit := WithinDay(eta, window);
    } else if e >= threshold {
      eta, hit := 0.0, true;
    }
    res := Ok(Forecast(slope, e, trend, Clamp(conf, 0, 100), eta, hit));
  }

  /** The clamp never acts, and full confidence means eight buckets exactly on one line. */
  lemma ConfidenceRange(y: seq<real>)
    requires |y| >= 3
    ensures 9 <= RawConfidence(y) <= 100
    ensures RawConfidence(y) == 100 <==> |y| >= 8 && OnLine(y, Slope(y), Intercept(y))
  {
    RSquaredRange(y);
    hide RSquared, Slope, Intercept, FitPoints, Agrees;
    FitPointsRange(RSquared(y));
    if OnLine(y, Slope(y), Intercept(y)) {
      LineAgrees(Slope(y), (|y| - 1) as real);
      OneTimes(Slope(y));
      assert y[|y| - 1] - y[0] == Slope(y) * (|y| - 1) as real;
    }
  }

  lemma FitPointsRange(r2: real)
    requires 0.0 <= r2 <= 1.0
    ensures 0 <= FitPoints(r2) <= 50 && (FitPoints(r2) == 50 <==> r2 == 1.0)
  {
  }

  lemma LineAgrees(s: real, last: real)
    requires last >= 0.0
    ensures Agrees(s * last, s)
  {
    SquareZero(s);
    assert (s * last) * s == Times(s, s) * last;
  }

  /** A positive time to threshold is where the straight projection meets it; it exists iff a rising level is below. */
  lemma EtaMeetsThreshold(y: seq<real>, threshold: real, window: nat)
    requires |y| >= 3
    ensures var f := ForecastOf(y, threshold, window).forecast;
            && (f.eta > 0.0 <==> f.slope > 0.0 && f.level < threshold)
            && (f.eta > 0.0 ==> f.level + f.slope * f.eta == threshold)
            && f.eta >= 0.0
  {
    hide Slope, Smoothed, RSquared, TrendOf, RawConfidence;
    var s, e := Slope(y), Smoothed(y, ALPHA);
    if s > 0.0 && threshold > e {
      Quotient(threshold - e, s);
    }
  }

  lemma Quotient(p: real, q: real)
    requires p > 0.0 && q > 0.0
    ensures p / q > 0.0 && q * (p / q) == p
  {
  }

  /** The summary line claims the threshold is already reached. */
  predicate SaysAlreadyOver(f: Forecast, threshold: real) {
    f.eta >= 0.0 && threshold > 0.0 && f.eta == 0.0
  }

  /** It claims so falsely exactly when a flat or falling level is below the threshold. */
  lemma FalseAlarmIff(y: seq<real>, threshold: real, window: nat)
    requires |y| >= 3
    ensures var f := ForecastOf(y, threshold, window).forecast;
            SaysAlreadyOver(f, threshold) && f.level < threshold
            <==> threshold > 0.0 && f.slope <= 0.0 && f.level < threshold
  {
    EtaMeetsThreshold(y, threshold, window);
  }

  /** One such series: a constant 1 against a threshold of 5. */
  lemma FalseAlarmExample()
    ensures var f := ForecastOf([1.0, 1.0, 1.0], 5.0, 1).forecast;
            SaysAlreadyOver(f, 5.0) && f.level == 1.0 && !f.hit
  {
    hide Slope, Intercept, RSquared, Smoothed, RawConfidence, TrendOf;
    var y := [1.0, 1.0, 1.0];
    LinearSeries(y, 0.0, 1.0);
    SmoothedWithin(y, ALPHA, 1.0, 1.0);
  }

  /** A level on a line: trend, level and confidence for a series that rises by `a` each bucket. */
  lemma SteadyTrend(y: seq<real>, a: real, b: real, threshold: real, window: nat)
    requires |y| >= 8 && OnLine(y, a, b)
    ensures var f := ForecastOf(y, threshold, window).forecast;
            f.slope == a && f.confidence == 100 && f.trend != Volatile
            && (f.trend == Rising ==> a > 0.0) && (f.trend == Falling ==> a < 0.0)
  {
    LinearSeries(y, a, b);
    ConfidenceRange(y);
    if a == 0.0 {
      assert Strength(0.0, Smoothed(y, ALPHA)) == 0.0;
    }
  }

  /** A trend is called strong if the slope is at least a fiftieth of the level, or of one. */
  predicate Strong(slope: real, level: real) {
    var size := if level > 1.0 then level else if level < -1.0 then -level else 1.0;
    slope >= 0.02 * size || -slope >= 0.02 * size
  }

  lemma StrongIff(slope: real, level: real)
    ensures Strong(slope, level) <==> Strength(slope, level) >= 0.02
  {
    var q, p := if Abs(level) > 1.0 then Abs(level) else 1.0, Abs(slope);
    StrongRatio(p, q);
  }

  lemma StrongRatio(p: real, q: real)
    requires q >= 1.0
    ensures p / q >= 0.02 <==> p >= 0.02 * q
  {
    var r := p / q;
    assert r * q == p;
    if r >= 0.02 {
      Product(r - 0.02, q);
      assert (r - 0.02) * q == r * q - 0.02 * q;
    } else {
      Product(0.02 - r, q);
      assert (0.02 - r) * q == 0.02 * q - r * q;
      Positive(0.02 - r, q);
    }
  }

  lemma Positive(a: real, b: real)
    requires a > 0.0 && b > 0.0
    ensures a * b > 0.0
  {
  }

  /** What each trend says: a weak slope is stable, a strong one with a poor fit volatile, else its sign decides. */
  lemma TrendMeans(y: seq<real>, threshold: real, window: nat)
    requires |y| >= 3
    ensures var f, r2 := ForecastOf(y, threshold, window).forecast, RSquared(y);
            && (f.trend == Stable <==> !Strong(f.slope, f.level))
            && (f.trend == Volatile <==> Strong(f.slope, f.level) && r2 < 0.1)
            && (f.trend == Rising <==> Strong(f.slope, f.level) && r2 >= 0.1 && f.slope > 0.0)
            && (f.trend == Falling <==> Strong(f.slope, f.level) && r2 >= 0.1 && f.slope < 0.0)
  {
    StrongIff(Slope(y), Smoothed(y, ALPHA));
    NotFlat(Slope(y), Smoothed(y, ALPHA));
    hide Slope, RSquared, Smoothed, Strength, Strong, RawConfidence, Projection;
  }

  lemma NotFlat(slope: real, level: real)
    ensures Strong(slope, level) ==> slope != 0.0
  {
  }

  /** A series on a line rises, falls or is stable exactly by the sign of its slope, if that is strong. */
  lemma SteadyTrendIff(y: seq<real>, a: real, b: real, threshold: real, window: nat)
    requires |y| >= 8 && OnLine(y, a, b)
    ensures var f := ForecastOf(y, threshold, window).forecast;
            && (f.trend == Rising <==> Strong(a, f.level) && a > 0.0)
            && (f.trend == Falling <==> Strong(a, f.level) && a < 0.0)
            && (f.trend == Stable <==> !Strong(a, f.level))
  {
    SteadyTrend(y, a, b, threshold, window);
    TrendMeans(y, threshold, window);
    NotFlat(a, Smoothed(y, ALPHA));
    hide ForecastOf, Strong, Slope, RSquared;
  }

  /** The threshold counts as met within a day: by the level itself, or by a rise that gets there in time. */
  lemma HitIff(y: seq<real>, threshold: real, window: nat)
    requires |y| >= 3
    ensures var f := ForecastOf(y, threshold, window).forecast;
            f.hit <==> f.level >= threshold || (f.slope > 0.0 && (f.eta * window as real).Floor <= 24 * 3600 * 1_000_000_000)
  {
    hide Slope, RSquared, Smoothed, TrendOf, RawConfidence;
  }

  /** Confidence: three points a bucket up to eight, which give thirty, fifty for the fit, twenty for the direction. */
  lemma ConfidenceIs(y: seq<real>, threshold: real, window: nat)
    requires |y| >= 3
    ensures ForecastOf(y, threshold, window).forecast.confidence
         == (if |y| >= 8 then 30 else 3 * |y|)
            + (RSquared(y) * 50.0).Floor
            + (if (y[|y| - 1] - y[0]) * Slope(y) >= 0.0 then 20 else 0)
  {
    ConfidenceRange(y);
    RSquaredRange(y);
    hide Slope, RSquared, Smoothed, TrendOf, Projection;
  }

  /** Smoothing starts at the first value and moves by the share `alpha` of the distance to each further one. */
  lemma SmoothedStep(y: seq<real>, v: real, alpha: real)
    ensures Smoothed([], alpha) == 0.0 && Smoothed([v], alpha) == v
    ensures y != [] ==> Smoothed(y + [v], alpha) - Smoothed(y, alpha) == alpha * (v - Smoothed(y, alpha))
  {
    if y != [] {
      assert (y + [v])[..|y|] == y;
      var e, s := Smoothed(y, alpha), Smoothed(y + [v], alpha);
      assert s == alpha * v + (1.0 - alpha) * e;
      hide Smoothed;
      MoveTowards(alpha, v, e);
    }
  }

  /** One more bucket moves the forecast's level by two fifths of the way to it. */
  lemma LevelStep(y: seq<real>, v: real, threshold: real, window: nat)
    requires |y| >= 3
    ensures var e := ForecastOf(y, threshold, window).forecast.level;
            ForecastOf(y + [v], threshold, window).forecast.level - e == 0.4 * (v - e)
  {
    SmoothedStep(y, v, ALPHA);
    hide Smoothed, Slope, RSquared, TrendOf, RawConfidence, Projection;
  }

  lemma MoveTowards(a: real, v: real, e: real)
    ensures a * v + (1.0 - a) * e - e == a * (v - e)
  {
  }
}
