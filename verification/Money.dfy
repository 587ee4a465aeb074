/** Money is counted in whole cents; rates and unrounded amounts are exact reals, in cents. */
module Money {

  /** Nearest cent, ties away from zero (Decimal.quantize with ROUND_HALF_UP).
      The two clauses leave exactly one possible result. */
  function Round(x: real): (r: int)
    ensures -0.5 <= r as real - x <= 0.5
    ensures r as real - x == 0.5 ==> x > 0.0
    ensures r as real - x == -0.5 ==> x < 0.0
  {
    if x >= 0.0 then (x + 0.5).Floor else -((-x + 0.5).Floor)
  }

  lemma RoundIsDetermined(x: real, r: int)
    requires -0.5 <= r as real - x <= 0.5
    requires r as real - x == 0.5 ==> x > 0.0
    requires r as real - x == -0.5 ==> x < 0.0
    ensures r == Round(x)
  {
    var s := Round(x);
    var gap := r - s;
    assert gap as real == (r as real - x) - (s as real - x);
  }

  lemma RoundMonotone(x: real, y: real)
    requires x <= y
    ensures Round(x) <= Round(y)
  {
  }

  lemma RoundOfCents(n: int)
    ensures Round(n as real) == n
  {
    RoundIsDetermined(n as real, n);
  }
}
