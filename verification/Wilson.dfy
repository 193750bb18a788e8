/** The Wilson interval for a win rate (backtest/report.py, `wilson`), over the reals; the square
    root is a parameter. */
module Wilson {
  import opened Numbers

  const Z95 := 1.96

  ghost predicate IsSqrt(sqrt: real -> real) {
    forall x :: x >= 0.0 ==> sqrt(x) >= 0.0 && sqrt(x) * sqrt(x) == x
  }

  function Denominator(n: nat): real
    requires n > 0
  {
    1.0 + Z95 * Z95 / n as real
  }

  function Center(p: real, n: nat): real
    requires n > 0
  {
    (p + Z95 * Z95 / (2.0 * n as real)) / Denominator(n)
  }

  function Radicand(p: real, n: nat): real
    requires n > 0
  {
    p * (1.0 - p) / n as real + Z95 * Z95 / (4.0 * n as real * n as real)
  }

  function Half(p: real, n: nat, sqrt: real -> real): real
    requires n > 0
  {
    Z95 * sqrt(Radicand(p, n)) / Denominator(n)
  }

  function Interval(wins: int, n: int, sqrt: real -> real): (real, real) {
    if n <= 0 then (0.0, 1.0)
    else
      var p := wins as real / n as real;
      (Max(0.0, Center(p, n) - Half(p, n, sqrt)), Min(1.0, Center(p, n) + Half(p, n, sqrt)))
  }

  /** The rates the score test does not reject: `(p - q)^2 <= z^2 q (1 - q) / n`. */
  predicate Accepts(p: real, n: nat, q: real)
    requires n > 0
  {
    (p - q) * (p - q) <= 1.96 * 1.96 * q * (1.0 - q) / n as real
  }

  // ----- The algebra, with the fractions named ---------------------------------------------------

  lemma ProductNonNegative(x: real, y: real)
    requires x >= 0.0 && y >= 0.0
    ensures x * y >= 0.0
  {}

  lemma ProductPositive(x: real, y: real)
    requires x > 0.0 && y > 0.0
    ensures x * y > 0.0
  {}

  lemma QuotientTimes(x: real, d: real)
    requires d > 0.0
    ensures x / d * d == x
  {}

  /** `a` is `z^2 / n`: the interval is where a quadratic in `q` is at most zero. */
  lemma Identity(p: real, q: real, a: real, d: real, c: real, h: real)
    requires d == 1.0 + a && c * d == p + a / 2.0 && (h * d) * (h * d) == a * (p * (1.0 - p)) + a * a / 4.0
    ensures d * (d * ((q - c) * (q - c) - h * h)) == d * ((p - q) * (p - q) - a * (q * (1.0 - q)))
  {
    var e := q * d - c * d;
    assert e == q * (1.0 + a) - p - a / 2.0;
    assert d * (d * ((q - c) * (q - c) - h * h)) == e * e - (h * d) * (h * d);
    Expand(p, q, a);
  }

  lemma Expand(p: real, q: real, a: real)
    ensures (q * (1.0 + a) - p - a / 2.0) * (q * (1.0 + a) - p - a / 2.0) - (a * (p * (1.0 - p)) + a * a / 4.0)
         == (1.0 + a) * ((p - q) * (p - q) - a * (q * (1.0 - q)))
  {}

  lemma Fractions(p: real, m: real, z: real)
    requires m > 0.0
    ensures z / (2.0 * m) == (z / m) / 2.0
    ensures z * (p * (1.0 - p) / m + z / (4.0 * m * m)) == (z / m) * (p * (1.0 - p)) + (z / m) * (z / m) / 4.0
  {
    var a, y := z / m, p * (1.0 - p);
    assert z == a * m;
    assert y / m * z == y * a by { assert y / m * (a * m) == y * a; }
    assert z / (4.0 * m * m) * z == a * a / 4.0 by {
      assert a * m / (4.0 * m * m) * (a * m) == a * a / 4.0;
    }
  }

  lemma SquareOrder(x: real, h: real)
    requires h >= 0.0
    ensures x * x <= h * h <==> -h <= x <= h
  {
    if x >= 0.0 { Factor(x, h); } else { Factor(-x, h); }
  }

  lemma Factor(x: real, h: real)
    requires x >= 0.0 && h >= 0.0
    ensures x * x <= h * h <==> x <= h
  {
    assert h * h - x * x == (h - x) * (h + x);
    if x <= h {
      ProductNonNegative(h - x, h + x);
    } else {
      ProductPositive(x - h, h + x);
    }
  }

  lemma SignOfProduct(d: real, x: real)
    requires d > 0.0
    ensures d * x <= 0.0 <==> x <= 0.0
  {}

  predicate IsRate(p: real) { 0.0 <= p <= 1.0 }

  /** The center and the half-width, cleared of their denominator. */
  lemma Cleared(p: real, n: nat, sqrt: real -> real)
    requires n > 0 && IsRate(p) && IsSqrt(sqrt)
    ensures var a, d, h := Z95 * Z95 / n as real, Denominator(n), Half(p, n, sqrt);
            && d > 0.0 && d == 1.0 + a && h >= 0.0 && Center(p, n) * d == p + a / 2.0
            && (h * d) * (h * d) == a * (p * (1.0 - p)) + a * a / 4.0
  {
    hide IsSqrt;
    var m, z := n as real, Z95 * Z95;
    var d, root := Denominator(n), sqrt(Radicand(p, n));
    RadicandNonNegative(p, n);
    RootOf(sqrt, Radicand(p, n));
    Fractions(p, m, z);
    HalfTimes(root, d);
    SquareOfProduct(Z95, root);
    QuotientTimes(p + z / (2.0 * m), d);
  }

  /** Before the clamps: the interval around the center is exactly the set of accepted rates. */
  lemma AcceptedRates(p: real, n: nat, q: real, sqrt: real -> real)
    requires n > 0 && IsRate(p) && IsSqrt(sqrt)
    ensures Half(p, n, sqrt) >= 0.0
    ensures Center(p, n) - Half(p, n, sqrt) <= q <= Center(p, n) + Half(p, n, sqrt) <==> Accepts(p, n, q)
  {
    hide IsSqrt, Center, Half, Denominator, Accepts;
    var a, d, c, h := Z95 * Z95 / n as real, Denominator(n), Center(p, n), Half(p, n, sqrt);
    Cleared(p, n, sqrt);
    Identity(p, q, a, d, c, h);
    AcceptsMeans(p, n, q);
    Compare(d, (q - c) * (q - c) - h * h, (p - q) * (p - q) - a * (q * (1.0 - q)));
    SquareOrder(q - c, h);
  }

  lemma SquareOfProduct(x: real, y: real)
    ensures (x * y) * (x * y) == (x * x) * (y * y)
  {}

  lemma HalfTimes(root: real, d: real)
    requires d > 0.0 && root >= 0.0
    ensures Z95 * root / d * d == Z95 * root && Z95 * root / d >= 0.0
  {
    QuotientTimes(Z95 * root, d);
    QuotientSign(Z95 * root, d);
  }

  lemma QuotientSign(x: real, d: real)
    requires d > 0.0 && x >= 0.0
    ensures x / d >= 0.0
  {}

  lemma RootOf(sqrt: real -> real, r: real)
    requires IsSqrt(sqrt) && r >= 0.0
    ensures sqrt(r) >= 0.0 && sqrt(r) * sqrt(r) == r
  {}

  lemma RadicandNonNegative(p: real, n: nat)
    requires n > 0 && IsRate(p)
    ensures Radicand(p, n) >= 0.0 && Denominator(n) > 0.0
  {
    var m := n as real;
    ProductNonNegative(p, 1.0 - p);
    QuotientSign(p * (1.0 - p), m);
    QuotientSign(Z95 * Z95, 4.0 * m * m);
    QuotientSign(Z95 * Z95, m);
  }

  lemma AcceptsMeans(p: real, n: nat, q: real)
    requires n > 0
    ensures Accepts(p, n, q) <==> (p - q) * (p - q) - Z95 * Z95 / n as real * (q * (1.0 - q)) <= 0.0
  {
    var m := n as real;
    assert Z95 * Z95 * q * (1.0 - q) / m == Z95 * Z95 / m * (q * (1.0 - q)) by {
      Reassociate(Z95 * Z95, q * (1.0 - q), m);
      assert Z95 * Z95 * q * (1.0 - q) == Z95 * Z95 * (q * (1.0 - q));
    }
  }

  lemma Reassociate(x: real, y: real, m: real)
    requires m > 0.0
    ensures x * y / m == x / m * y
  {}

  lemma Compare(d: real, x: real, y: real)
    requires d > 0.0 && d * (d * x) == d * y
    ensures x <= 0.0 <==> y <= 0.0
  {
    SignOfProduct(d, y);
    SignOfProduct(d, d * x);
    SignOfProduct(d, x);
  }

  lemma AcceptedIsRate(p: real, n: nat, q: real)
    requires n > 0 && Accepts(p, n, q)
    ensures IsRate(q)
  {
    AcceptsMeans(p, n, q);
    var a := Z95 * Z95 / n as real;
    SquareNonNegative(p - q);
    assert a > 0.0;
    SignOfProduct(a, -(q * (1.0 - q)));
    assert q * (1.0 - q) >= 0.0;
    OutsideIsNegative(q);
  }

  lemma SquareNonNegative(x: real)
    ensures x * x >= 0.0
  {}

  lemma OutsideIsNegative(q: real)
    ensures !IsRate(q) ==> q * (1.0 - q) < 0.0
  {
    if q < 0.0 {
      ProductPositive(-q, 1.0 - q);
    } else if q > 1.0 {
      ProductPositive(q, q - 1.0);
    }
  }

  /** The interval lies in [0, 1], contains the observed win rate, and is exactly the set of the
      rates the score test accepts: the clamps to [0, 1] never cut anything off. */
  lemma WilsonInterval(wins: nat, n: nat, q: real, sqrt: real -> real)
    requires n > 0 && wins <= n && IsSqrt(sqrt)
    ensures var (lo, hi) := Interval(wins, n, sqrt); var p := wins as real / n as real;
            && 0.0 <= lo <= p <= hi <= 1.0
            && (lo <= q <= hi <==> Accepts(p, n, q))
    ensures Interval(wins, 0, sqrt) == (0.0, 1.0)
  {
    hide IsSqrt, Center, Half, Accepts;
    var p := wins as real / n as real;
    WinRate(wins, n);
    var lo, hi := Center(p, n) - Half(p, n, sqrt), Center(p, n) + Half(p, n, sqrt);
    AcceptsItself(p, n);
    AcceptedRates(p, n, p, sqrt);
    AcceptedRates(p, n, q, sqrt);
    AcceptedRates(p, n, lo, sqrt);
    AcceptedRates(p, n, hi, sqrt);
    AcceptedIsRate(p, n, lo);
    AcceptedIsRate(p, n, hi);
  }

  lemma WinRate(wins: nat, n: nat)
    requires n > 0 && wins <= n
    ensures IsRate(wins as real / n as real)
  {}

  lemma AcceptsItself(p: real, n: nat)
    requires n > 0 && IsRate(p)
    ensures Accepts(p, n, p)
  {
    ProductNonNegative(p, 1.0 - p);
    ProductNonNegative(Z95 * Z95, p * (1.0 - p));
    QuotientSign(Z95 * Z95 * p * (1.0 - p), n as real);
  }
}
