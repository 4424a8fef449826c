/** Forward-mode differentiation in two variables, truncated at second order in
    each: the independent reference against which the hand-expanded derivative
    formulas of the three solvers are checked.

    A jet describes a smooth function f(x, p) near one point (x0, p0) by its
    Taylor coefficients: `cij` multiplies (x - x0)^i * (p - p0)^j, for i, j <= 2.
    Sums and products of jets are the jets of sums and products, and composing
    a jet with a scalar function needs that function's derivatives up to order
    four, because every monomial kept has total degree at most four. */
module Jets {
  import opened Sums

  datatype Jet = Jet(c00: real, c01: real, c02: real,
                     c10: real, c11: real, c12: real,
                     c20: real, c21: real, c22: real)

  /** A value that depends on neither variable. */
  function Const(r: real): Jet
  {
    Jet(r, 0.0, 0.0, 0.0, 0.0, 0.0, 0.0, 0.0, 0.0)
  }

  /** The input variable x, expanded at x0. */
  function VarX(x0: real): Jet
  {
    Jet(x0, 0.0, 0.0, 1.0, 0.0, 0.0, 0.0, 0.0, 0.0)
  }

  /** The parameter p, expanded at p0. */
  function VarP(p0: real): Jet
  {
    Jet(p0, 1.0, 0.0, 0.0, 0.0, 0.0, 0.0, 0.0, 0.0)
  }

  function Add(a: Jet, b: Jet): Jet
  {
    Jet(a.c00 + b.c00, a.c01 + b.c01, a.c02 + b.c02,
        a.c10 + b.c10, a.c11 + b.c11, a.c12 + b.c12,
        a.c20 + b.c20, a.c21 + b.c21, a.c22 + b.c22)
  }

  function Scale(k: real, a: Jet): Jet
  {
    Jet(k * a.c00, k * a.c01, k * a.c02,
        k * a.c10, k * a.c11, k * a.c12,
        k * a.c20, k * a.c21, k * a.c22)
  }

  /** The product of two truncated series, keeping degrees up to two in each variable. */
  function Mul(a: Jet, b: Jet): Jet
  {
    Jet(a.c00 * b.c00,
        a.c00 * b.c01 + a.c01 * b.c00,
        a.c00 * b.c02 + a.c01 * b.c01 + a.c02 * b.c00,
        a.c00 * b.c10 + a.c10 * b.c00,
        a.c00 * b.c11 + a.c01 * b.c10 + a.c10 * b.c01 + a.c11 * b.c00,
        a.c00 * b.c12 + a.c01 * b.c11 + a.c02 * b.c10 + a.c10 * b.c02 + a.c11 * b.c01 + a.c12 * b.c00,
        a.c00 * b.c20 + a.c10 * b.c10 + a.c20 * b.c00,
        a.c00 * b.c21 + a.c01 * b.c20 + a.c10 * b.c11 + a.c11 * b.c10 + a.c20 * b.c01 + a.c21 * b.c00,
        a.c00 * b.c22 + a.c01 * b.c21 + a.c02 * b.c20 + a.c10 * b.c12 + a.c11 * b.c11
          + a.c12 * b.c10 + a.c20 * b.c02 + a.c21 * b.c01 + a.c22 * b.c00)
  }

  /** The part of a jet that vanishes at the expansion point. */
  function Shift(a: Jet): Jet
  {
    a.(c00 := 0.0)
  }

  /** g(a) for a scalar function g whose derivatives of order 0 to 4 at a.c00
      are d0 to d4: the truncated Taylor series sum of dk/k! * (a - a.c00)^k. */
  function Compose(d0: real, d1: real, d2: real, d3: real, d4: real, a: Jet): Jet
  {
    var e1 := Shift(a);
    var e2 := Mul(e1, e1);
    var e3 := Mul(e2, e1);
    var e4 := Mul(e3, e1);
    Add(Add(Add(Add(Const(d0), Scale(d1, e1)), Scale(d2 / 2.0, e2)), Scale(d3 / 6.0, e3)), Scale(d4 / 24.0, e4))
  }

  /** The mixed partial derivative of order i in x and j in p at the expansion
      point: i! * j! times the Taylor coefficient. */
  function D(a: Jet, i: nat, j: nat): real
    requires i <= 2 && j <= 2
  {
    if i == 0 then
      (if j == 0 then a.c00 else if j == 1 then a.c01 else 2.0 * a.c02)
    else if i == 1 then
      (if j == 0 then a.c10 else if j == 1 then a.c11 else 2.0 * a.c12)
    else
      (if j == 0 then 2.0 * a.c20 else if j == 1 then 2.0 * a.c21 else 4.0 * a.c22)
  }

  /** Differentiation commutes with scaling by a constant. */
  lemma DScale(k: real, a: Jet, i: nat, j: nat)
    requires i <= 2 && j <= 2
    ensures D(Scale(k, a), i, j) == k * D(a, i, j)
  {
  }

  /** A quantity that depends on x only, given its value and first two
      x-derivatives at x0. */
  function SeriesX(f0: real, f1: real, f2: real): (a: Jet)
    ensures D(a, 0, 0) == f0 && D(a, 1, 0) == f1 && D(a, 2, 0) == f2
    ensures forall i: nat, j: nat :: i <= 2 && 1 <= j <= 2 ==> D(a, i, j) == 0.0
  {
    Jet(f0, 0.0, 0.0, f1, 0.0, 0.0, f2 / 2.0, 0.0, 0.0)
  }

  /** A quantity that depends on p only, given its value and first two
      p-derivatives at p0. */
  function SeriesP(f0: real, f1: real, f2: real): (a: Jet)
    ensures D(a, 0, 0) == f0 && D(a, 0, 1) == f1 && D(a, 0, 2) == f2
    ensures D(a, 1, 0) == 0.0 && D(a, 2, 0) == 0.0 && D(a, 1, 1) == 0.0
  {
    Jet(f0, f1, f2 / 2.0, 0.0, 0.0, 0.0, 0.0, 0.0, 0.0)
  }

  /** The chain rule along p: a scalar function with derivatives d0, d1, d2
      applied to a quantity with p-derivatives y1, y2 has first p-derivative
      d1*y1 and second d1*y2 + d2*y1^2; higher derivatives of the function do
      not contribute. */
  lemma ComposeSeriesP(d0: real, d1: real, d2: real, d3: real, d4: real, y0: real, y1: real, y2: real)
    ensures D(Compose(d0, d1, d2, d3, d4, SeriesP(y0, y1, y2)), 0, 0) == d0
    ensures D(Compose(d0, d1, d2, d3, d4, SeriesP(y0, y1, y2)), 0, 1) == d1 * y1
    ensures D(Compose(d0, d1, d2, d3, d4, SeriesP(y0, y1, y2)), 0, 2) == d1 * y2 + d2 * y1 * y1
  {
    var e1 := Shift(SeriesP(y0, y1, y2));
    assert e1 == Jet(0.0, y1, y2 / 2.0, 0.0, 0.0, 0.0, 0.0, 0.0, 0.0);
    assert Mul(e1, e1) == Jet(0.0, 0.0, y1 * y1, 0.0, 0.0, 0.0, 0.0, 0.0, 0.0);
    assert Mul(Mul(e1, e1), e1) == Const(0.0);
  }

  /** The jet of f(x, p0 + c*q) in q, given the jet `a` of f(x, p) at p0:
      the parameter reparametrised linearly. The x-derivatives stay, and
      each first parameter derivative is scaled by c. */
  function StretchP(c: real, a: Jet): (r: Jet)
    ensures D(r, 0, 0) == D(a, 0, 0) && D(r, 1, 0) == D(a, 1, 0) && D(r, 2, 0) == D(a, 2, 0)
    ensures D(r, 0, 1) == c * D(a, 0, 1) && D(r, 1, 1) == c * D(a, 1, 1) && D(r, 2, 1) == c * D(a, 2, 1)
  {
    Jet(a.c00, c * a.c01, c * c * a.c02,
        a.c10, c * a.c11, c * c * a.c12,
        a.c20, c * a.c21, c * c * a.c22)
  }

  /** The termwise sum of a sequence of jets. */
  function JetSum(js: seq<Jet>): Jet
  {
    if |js| == 0 then Const(0.0) else Add(js[0], JetSum(js[1..]))
  }

  /** The derivatives of the given order of each jet in `js`. */
  function Derivatives(js: seq<Jet>, i: nat, j: nat): (d: seq<real>)
    requires i <= 2 && j <= 2
    ensures |d| == |js|
    ensures forall k :: 0 <= k < |js| ==> d[k] == D(js[k], i, j)
  {
    seq(|js|, k requires 0 <= k < |js| => D(js[k], i, j))
  }

  /** Differentiation commutes with finite sums. */
  lemma {:induction false} JetSumDerivative(js: seq<Jet>, i: nat, j: nat)
    requires i <= 2 && j <= 2
    ensures D(JetSum(js), i, j) == Sum(Derivatives(js, i, j))
  {
    if |js| > 0 {
      JetSumDerivative(js[1..], i, j);
      assert Derivatives(js, i, j)[1..] == Derivatives(js[1..], i, j);
    }
  }
}
