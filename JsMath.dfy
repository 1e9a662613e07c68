/** The JavaScript `Math` functions the game relies on, over exact reals. */
module JsMath {

  /** `Math.round`: the nearest integer, halves rounded up. */
  function Round(x: real): (r: int)
    ensures r as real - 0.5 <= x < r as real + 0.5
  {
    (x + 0.5).Floor
  }

  /** An integral value rounds to itself. */
  lemma RoundOfInteger(n: int)
    ensures Round(n as real) == n
  {
  }

  /** A positive score never rounds below zero; below one half it rounds to zero. */
  lemma RoundOfPositive(x: real)
    requires x > 0.0
    ensures Round(x) >= 0
    ensures x < 0.5 <==> Round(x) == 0
  {
  }

  /** Rounding never reverses an order. */
  lemma RoundMonotone(x: real, y: real)
    requires x <= y
    ensures Round(x) <= Round(y)
  {
  }

  /** `Math.max` of two reals. */
  function MaxReal(a: real, b: real): (r: real)
    ensures r >= a && r >= b && (r == a || r == b)
  {
    if a >= b then a else b
  }

  /** `Math.min` of two reals. */
  function MinReal(a: real, b: real): (r: real)
    ensures r <= a && r <= b && (r == a || r == b)
  {
    if a <= b then a else b
  }

  /** A quotient by a positive number is at least 1 exactly when the dividend is at least the divisor. */
  lemma DivAtLeastOne(d: real, m: real)
    requires m > 0.0
    ensures d / m >= 1.0 <==> d >= m
  {
    var q := d / m;
    assert q * m == d;
    if d >= m {
      assert q >= 1.0;
    } else {
      assert q < 1.0;
    }
  }
}
