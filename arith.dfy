/** Small facts about real multiplication and division, each over plain real
    variables so that the solver sees the products exactly as written. The
    vector, shader and matrix proofs call them with the terms they need. */
module RealArith {

  lemma MulPositive(a: real, b: real)
    requires a > 0.0 && b > 0.0
    ensures a * b > 0.0
  {
  }

  lemma SquarePositive(x: real)
    requires x < 0.0 || x > 0.0
    ensures x * x > 0.0
  {
    if x < 0.0 { MulPositive(-x, -x); } else { MulPositive(x, x); }
  }

  lemma SquareNonNegative(x: real)
    ensures !(x * x < 0.0)
  {
    if x < 0.0 || x > 0.0 { SquarePositive(x); }
  }

  lemma MulBoth(a: real, b: real, c: real)
    requires a == b
    ensures c * a == c * b
  {
  }

  /** A product with a positive factor is zero only when the other factor is. */
  lemma ProductZero(p: real, q: real)
    requires p * q == 0.0 && q > 0.0
    ensures p == 0.0
  {
    if p > 0.0 { MulPositive(p, q); } else if p < 0.0 { MulPositive(-p, q); }
  }

  lemma TimesInverseTimes(x: real, d: real)
    requires d > 0.0
    ensures d * (x / d) == x
  {
  }

  lemma SumOfSquaresNonNegative(d: real, a: real, b: real, c: real)
    requires d == a * a + b * b + c * c
    ensures !(d < 0.0)
  {
    SquareNonNegative(a);
    SquareNonNegative(b);
    SquareNonNegative(c);
  }

  lemma InverseTimes(d: real)
    requires d < 0.0 || d > 0.0
    ensures (1.0 / d) * d == 1.0
  {
  }

  lemma InverseOfNegative(d: real)
    requires d < 0.0
    ensures 1.0 / d < 0.0
  {
  }

  lemma SquareOfZero(x: real)
    requires x == 0.0
    ensures x * x == 0.0
  {
  }
}
