/** Whole-number rounding as `Math.round` does it. */
module Rounding {
  /** `Math.round(n / d)`: the nearest whole number, halves upwards. */
  function RoundDiv(n: int, d: nat): int
    requires d > 0
  {
    (2 * n + d) / (2 * d)
  }

  lemma {:induction false} SignOfProduct(m: int, d: nat)
    requires d > 0
    ensures m * d > 0 <==> m > 0
  {
    if d > 1 {
      SignOfProduct(m, d - 1);
      assert m * d == m * (d - 1) + m;
    }
  }

  lemma RoundBetween(n: int, d: nat, low: int, high: int)
    requires d > 0 && low * d <= n <= high * d
    ensures low <= RoundDiv(n, d) <= high
  {
    var q := RoundDiv(n, d);
    assert 2 * d * q <= 2 * n + d < 2 * d * q + 2 * d;
    SignOfProduct(q - low + 1, d);
    SignOfProduct(high - q + 1, d);
    assert (q - low + 1) * d == d * q - low * d + d;
    assert (high - q + 1) * d == high * d - d * q + d;
  }

  /** The result is the nearest whole number, halves upwards. */
  lemma RoundNear(n: int, d: nat)
    requires d > 0
    ensures 0 - d < 2 * (RoundDiv(n, d) * d - n) <= d
  {
    var q := RoundDiv(n, d);
    assert 2 * d * q <= 2 * n + d < 2 * d * q + 2 * d;
  }
}
