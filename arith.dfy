/** Sign facts about products and quotients of reals by a positive divisor,
    which the percentage comparisons of the screens reduce to. */
module Arith {

  lemma MulSign(x: real, b: real)
    requires b > 0.0
    ensures x > 0.0 ==> x * b > 0.0
    ensures x == 0.0 ==> x * b == 0.0
    ensures x < 0.0 ==> x * b < 0.0
  {
  }

  /** Comparing a quotient by a positive divisor with a constant is
      comparing the dividend with the constant times the divisor. */
  lemma QuotientCompare(a: real, b: real, c: real)
    requires b > 0.0
    ensures a / b > c <==> a > c * b
    ensures a / b >= c <==> a >= c * b
    ensures a / b == c <==> a == c * b
  {
    var q := a / b;
    assert q * b == a;
    MulSign(q - c, b);
    assert (q - c) * b == a - c * b;
  }

  /** A part of a positive whole, divided by it, lies in [0, 1]. */
  lemma UnitQuotient(a: real, b: real)
    requires b > 0.0 && 0.0 <= a <= b
    ensures 0.0 <= a / b <= 1.0
  {
    QuotientCompare(a, b, 0.0);
    QuotientCompare(a, b, 1.0);
  }

  /** A product by a positive factor keeps at least that factor when the
      other factor is at least 1, and at most its negation when it is at
      most -1. */
  lemma MulAtLeast(x: int, b: int)
    requires b > 0
    ensures x >= 1 ==> x * b >= b
    ensures x <= -1 ==> x * b <= -b
  {
    if x >= 1 {
      assert (x - 1) * b >= 0;
    }
    if x <= -1 {
      assert (-1 - x) * b >= 0;
    }
  }

  /** Integer division by a positive divisor is determined by any quotient
      and remainder that recompose the dividend. */
  lemma DivUnique(a: int, b: int, q: int, r: int)
    requires b > 0 && 0 <= r < b && a == q * b + r
    ensures a / b == q && a % b == r
  {
    var d := q - a / b;
    assert d * b == a % b - r;
    MulAtLeast(d, b);
  }

  /** A non-negative dividend below `(q + 1) * b` has a quotient of at most `q`. */
  lemma QuotientBelow(a: int, b: int, q: int)
    requires b > 0 && 0 <= a < (q + 1) * b
    ensures a / b <= q
  {
    var c := a / b;
    assert a == c * b + a % b;
    assert (c - q) * b == c * b - q * b;
    assert (q + 1) * b == q * b + b;
    MulAtLeast(c - q, b);
  }
}
