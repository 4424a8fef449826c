/** Small facts about real arithmetic, each stated over opaque values so that
    the solver meets one nonlinear step at a time. */
module Algebra {

  /** The identity on reals. Writing a square as a * Id(a) rather than a * a
      keeps the two factors apart for the solver, which otherwise rewrites
      the square into a form it reasons about poorly. */
  function Id(a: real): real
  {
    a
  }

  /** A product of positive numbers is positive. */
  lemma PositiveProduct(a: real, b: real)
    requires a > 0.0 && b > 0.0
    ensures a * b > 0.0
  {
  }

  /** A product of non-zero numbers is non-zero. */
  lemma NonzeroProduct(a: real, b: real)
    requires a != 0.0 && b != 0.0
    ensures a * b != 0.0
  {
    if a > 0.0 && b > 0.0 {
      PositiveProduct(a, b);
    } else if a > 0.0 {
      PositiveProduct(a, -b);
    } else if b > 0.0 {
      PositiveProduct(-a, b);
    } else {
      PositiveProduct(-a, -b);
    }
  }

  /** Equal values scaled alike stay equal. */
  lemma ScaleEqual(k: real, a: real, b: real, ka: real, kb: real)
    requires a == b
    requires ka == k * a && kb == k * b
    ensures ka == kb
  {
  }
}
