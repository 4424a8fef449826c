/** The sample problem of eq/ode2_bvp_00.py: the second-order equation
    G(x, y, y', y'') = y'' - y' + 2x - 1 = 0 on [0, 1] with y(0) = 1 and
    y(1) = 3, its partial derivatives, and its analytical solution
    y = x^2 + x + 1 with the solution's first two derivatives. */
module Ode2Bvp00 {

  /** The equation G(x, y, dy/dx, d2y/dx2). */
  function G(x: real, y: real, dy: real, d2y: real): real
  {
    d2y - dy + 2.0 * x - 1.0
  }

  /** The boundary values at x = 0 and at x = 1. */
  const Bc0: real := 1.0
  const Bc1: real := 3.0

  /** The partials of G with respect to y, to dy/dx and to d2y/dx2. */
  function DGdY(x: real, y: real, dy: real, d2y: real): real
  {
    0.0
  }

  function DGdDY(x: real, y: real, dy: real, d2y: real): real
  {
    -1.0
  }

  function DGdD2Y(x: real, y: real, dy: real, d2y: real): real
  {
    1.0
  }

  /** The analytical solution and its first two derivatives. */
  function Ya(x: real): real
  {
    x * x + x + 1.0
  }

  function DYa(x: real): real
  {
    2.0 * x + 1.0
  }

  function D2Ya(x: real): real
  {
    2.0
  }

  /** The analytical solution satisfies the equation at every x. */
  lemma SolutionSatisfies(x: real)
    ensures G(x, Ya(x), DYa(x), D2Ya(x)) == 0.0
  {
  }

  /** The analytical solution meets both boundary conditions. */
  lemma SolutionBoundary()
    ensures Ya(0.0) == Bc0 && Ya(1.0) == Bc1
  {
  }

  /** G is affine in (y, y', y''), so its partials predict any change of
      those arguments exactly, however large. */
  lemma PartialsExact(x: real, y: real, dy: real, d2y: real, a: real, b: real, c: real)
    ensures G(x, y + a, dy + b, d2y + c) - G(x, y, dy, d2y)
         == a * DGdY(x, y, dy, d2y) + b * DGdDY(x, y, dy, d2y) + c * DGdD2Y(x, y, dy, d2y)
  {
  }

  /** The solution is quadratic, so its first two derivatives expand it
      exactly: DYa and D2Ya are its derivatives. */
  lemma SolutionTaylor(x: real, h: real)
    ensures Ya(x + h) - Ya(x) == h * DYa(x) + h * h / 2.0 * D2Ya(x)
    ensures DYa(x + h) - DYa(x) == h * D2Ya(x)
  {
  }

  /** G does not depend on y, as its zero y-partial says. */
  lemma IndependentOfY(x: real, y1: real, y2: real, dy: real, d2y: real)
    ensures G(x, y1, dy, d2y) == G(x, y2, dy, d2y)
    ensures DGdY(x, y1, dy, d2y) == 0.0
  {
  }
}
