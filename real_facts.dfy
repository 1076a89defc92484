/** Elementary facts about multiplication of reals that the solver does not
    find on its own. */
module RealFacts {

  /** A product of non-negative numbers is non-negative. */
  lemma MulNonNegative(a: real, b: real)
    requires a >= 0.0 && b >= 0.0
    ensures a * b >= 0.0
  {
  }

  /** Cancelling a non-zero factor. */
  lemma MulCancel(a: real, b: real, d: real)
    requires d != 0.0 && a * d == b * d
    ensures a == b
  {
    assert (a - b) * d == 0.0;
  }

  /** A factor whose product with a positive number is non-negative is non-negative. */
  lemma NonNegativeFactor(a: real, d: real)
    requires d > 0.0 && a * d >= 0.0
    ensures a >= 0.0
  {
  }

  /** Dividing a product by one of its non-zero factors gives the other factor. */
  lemma DivideBack(r: real, p: real, q: real)
    requires p != 0.0 && r == p * q
    ensures r / p == q
  {
  }

  /** Multiplying by a non-negative number preserves order. */
  lemma MulMonotone(x: real, a: real, b: real)
    requires x >= 0.0 && a <= b
    ensures x * a <= x * b
  {
    MulNonNegative(x, b - a);
  }

  /** Multiplying by a positive number preserves strict order. */
  lemma MulStrict(x: real, a: real, b: real)
    requires x > 0.0 && a < b
    ensures x * a < x * b
  {
    assert x * (b - a) > 0.0;
  }

  /** A common positive factor can be cancelled from an inequality. */
  lemma MulMonotoneInverse(y: real, x: real, b: real)
    requires b > 0.0 && y * b <= x * b
    ensures y <= x
  {
    if y > x { MulStrict(b, x, y); }
  }

  /** A common positive factor can be cancelled from a strict inequality. */
  lemma MulStrictInverse(y: real, x: real, b: real)
    requires b > 0.0 && y * b < x * b
    ensures y < x
  {
    if y >= x { MulMonotone(b, x, y); }
  }

  /** Dividing a non-negative number by a larger divisor gives no more. */
  lemma DivMonotone(p: real, a: real, b: real)
    requires p >= 0.0 && 0.0 < a <= b
    ensures p / b <= p / a
  {
    var x, y := p / a, p / b;
    assert x * a == p && y * b == p;
    NonNegativeFactor(x, a);
    MulMonotone(x, a, b);
    MulMonotoneInverse(y, x, b);
  }

  /** Dividing a positive number by a strictly larger divisor gives strictly less. */
  lemma DivStrict(p: real, a: real, b: real)
    requires p > 0.0 && 0.0 < a < b
    ensures p / b < p / a
  {
    var x, y := p / a, p / b;
    assert x * a == p && y * b == p;
    NonNegativeFactor(x, a);
    assert x != 0.0;
    MulStrict(x, a, b);
    MulStrictInverse(y, x, b);
  }
}
