/** Real numbers as doubles compare them, and how far doubles reach. */
module Numbers {
  function Min(a: real, b: real): real { if b < a then b else a }
  function Max(a: real, b: real): real { if a < b then b else a }
  function Abs(x: real): real { if x < 0.0 then -x else x }

  function Power2(n: nat): nat { if n == 0 then 1 else 2 * Power2(n - 1) }

  /** From here on a number rounds beyond the largest double. */
  const DOUBLE_LIMIT := Power2(1024) - Power2(970)

  predicate BeyondDouble(x: real) { Abs(x) >= DOUBLE_LIMIT as real }

  lemma {:induction false} Power2Grows(m: nat, n: nat)
    requires m <= n
    ensures 0 < Power2(m) <= Power2(n) && (m < n ==> 2 * Power2(m) <= Power2(n))
  {
    if m < n { Power2Grows(m, n - 1); } else if m > 0 { Power2Grows(m - 1, m - 1); }
  }

  lemma {:induction false} Power2Adds(m: nat, n: nat)
    ensures Power2(m + n) == Power2(m) * Power2(n)
  {
    if m > 0 { Power2Adds(m - 1, n); }
  }

  /** A number is beyond a double exactly when it lies no nearer to the largest double, whose significand has
      53 bits, than to the power of two above it. */
  lemma BeyondIsNoNearer(x: real)
    ensures var top, largest := Power2(1024), Power2(1024) - Power2(971);
            BeyondDouble(x) <==> Abs(x) - largest as real >= top as real - Abs(x)
  {
    hide Power2;
    TwiceTheHalf(970);
  }

  lemma TwiceTheHalf(n: nat)
    ensures Power2(n + 1) == 2 * Power2(n)
  {}

  lemma Power2Of40()
    ensures Power2(40) > 1_000_000_000_000
  {
    Power2Adds(1, 1);
    Power2Adds(2, 2);
    Power2Adds(4, 1);
    Power2Adds(5, 5);
    Power2Adds(10, 10);
    Power2Adds(20, 20);
    assert Power2(1) == 2 && Power2(5) == 32 && Power2(10) == 1_024;
  }

  /** A number up to a thousand billions fits a double many times over. */
  lemma SmallFits(x: real)
    requires -1_000_000_000_000.0 <= x <= 1_000_000_000_000.0
    ensures !BeyondDouble(x)
  {
    hide Power2;
    Power2Grows(970, 1024);
    Power2Grows(40, 970);
    Power2Of40();
  }
}
