/** The error functional shared by the three solvers and the two update rules.

    Each solver reduces its equation to one residual per training point,
    r[i] (G in the PDE solver, dyt/dx - f in nnode1.py, d2yt/dx2 - f in
    nnode2ivp.py), and, per parameter, the residual's first and second
    derivatives dr[i], d2r[i] along that parameter. The error is the sum of
    the squared residuals; its derivatives along the parameter are accumulated
    point by point. */
module Errors {
  import opened Sums
  import opened Jets
  import opened Algebra

  /** The square of a residual: never negative, and zero exactly when the
      residual is. */
  function Sq(a: real): (s: real)
    ensures s >= 0.0
    ensures s == 0.0 <==> a == 0.0
  {
    if a > 0.0 then PositiveProduct(a, Id(a)); a * Id(a)
    else if a < 0.0 then PositiveProduct(-a, -Id(a)); a * Id(a)
    else 0.0
  }

  /** Termwise squares. */
  function Squares(r: seq<real>): (q: seq<real>)
    ensures |q| == |r|
    ensures forall i :: 0 <= i < |r| ==> q[i] == Sq(r[i])
  {
    seq(|r|, i requires 0 <= i < |r| => Sq(r[i]))
  }

  /** Whether every residual is zero: the training points are solved exactly. */
  predicate AllZero(r: seq<real>)
  {
    forall i :: 0 <= i < |r| ==> r[i] == 0.0
  }

  /** E = sum of r[i]^2. It is never negative, and it is zero exactly when
      every residual is zero. */
  function Error(r: seq<real>): (e: real)
    ensures e >= 0.0
    ensures e == 0.0 <==> AllZero(r)
  {
    var q := Squares(r);
    SumNonneg(q);
    Sum(q)
  }

  /** The termwise contributions 2 * r[i] * dr[i] to dE/dp. */
  function GradTerms(r: seq<real>, dr: seq<real>): (t: seq<real>)
    requires |dr| == |r|
    ensures |t| == |r|
  {
    seq(|r|, i requires 0 <= i < |r| => 2.0 * r[i] * dr[i])
  }

  /** dE/dp = sum of 2 * r[i] * dr[i]; it vanishes when every residual does. */
  function Grad(r: seq<real>, dr: seq<real>): (g: real)
    requires |dr| == |r|
    ensures AllZero(r) ==> g == 0.0
  {
    var t := GradTerms(r, dr);
    if AllZero(r) then SumZero(t); Sum(t) else Sum(t)
  }

  /** The termwise contributions 2 * (r[i] * d2r[i] + dr[i]^2) to d2E/dp2. */
  function CurvTerms(r: seq<real>, dr: seq<real>, d2r: seq<real>): (t: seq<real>)
    requires |dr| == |r| && |d2r| == |r|
    ensures |t| == |r|
  {
    seq(|r|, i requires 0 <= i < |r| => 2.0 * (r[i] * d2r[i] + Sq(dr[i])))
  }

  /** d2E/dp2 = sum of 2 * (r[i] * d2r[i] + dr[i]^2); when every residual is
      zero only the squares remain, so it is non-negative, and zero exactly
      when every dr[i] is zero. */
  function Curv(r: seq<real>, dr: seq<real>, d2r: seq<real>): (c: real)
    requires |dr| == |r| && |d2r| == |r|
    ensures AllZero(r) ==> c >= 0.0 && (c == 0.0 <==> AllZero(dr))
  {
    var t := CurvTerms(r, dr, d2r);
    if AllZero(r) then
      assert forall i :: 0 <= i < |r| ==> t[i] == 2.0 * Sq(dr[i]);
      SumNonneg(t);
      Sum(t)
    else
      Sum(t)
  }

  /** The squared residuals as series in the parameter. */
  function SquaredSeries(r: seq<real>, dr: seq<real>, d2r: seq<real>): (js: seq<Jet>)
    requires |dr| == |r| && |d2r| == |r|
    ensures |js| == |r|
  {
    seq(|r|, i requires 0 <= i < |r| =>
      var j := SeriesP(r[i], dr[i], d2r[i]); Mul(j, j))
  }

  /** The derivatives of one squared residual series. */
  lemma SquareSeries(r: real, dr: real, d2r: real)
    ensures D(Mul(SeriesP(r, dr, d2r), SeriesP(r, dr, d2r)), 0, 0) == Sq(r)
    ensures D(Mul(SeriesP(r, dr, d2r), SeriesP(r, dr, d2r)), 0, 1) == 2.0 * r * dr
    ensures D(Mul(SeriesP(r, dr, d2r), SeriesP(r, dr, d2r)), 0, 2) == 2.0 * (r * d2r + Sq(dr))
  {
  }

  /** Error, Grad and Curv are the value and the first two parameter
      derivatives of the sum of the squared residual series: the accumulated
      dE and d2E are the derivatives of E, not merely formulas that resemble
      them. */
  lemma ErrorSeries(r: seq<real>, dr: seq<real>, d2r: seq<real>)
    requires |dr| == |r| && |d2r| == |r|
    ensures D(JetSum(SquaredSeries(r, dr, d2r)), 0, 0) == Error(r)
    ensures D(JetSum(SquaredSeries(r, dr, d2r)), 0, 1) == Grad(r, dr)
    ensures D(JetSum(SquaredSeries(r, dr, d2r)), 0, 2) == Curv(r, dr, d2r)
  {
    var js := SquaredSeries(r, dr, d2r);
    forall i | 0 <= i < |r|
      ensures Derivatives(js, 0, 0)[i] == Squares(r)[i]
      ensures Derivatives(js, 0, 1)[i] == GradTerms(r, dr)[i]
      ensures Derivatives(js, 0, 2)[i] == CurvTerms(r, dr, d2r)[i]
    {
      SquareSeries(r[i], dr[i], d2r[i]);
    }
    JetSumDerivative(js, 0, 0);
    JetSumDerivative(js, 0, 1);
    JetSumDerivative(js, 0, 2);
    SumCongruent(Squares(r), Derivatives(js, 0, 0));
    SumCongruent(GradTerms(r, dr), Derivatives(js, 0, 1));
    SumCongruent(CurvTerms(r, dr, d2r), Derivatives(js, 0, 2));
  }

  /** The termwise squares of a sequence of series. */
  function Squared(js: seq<Jet>): (sq: seq<Jet>)
    ensures |sq| == |js|
    ensures forall i :: 0 <= i < |js| ==> sq[i] == Mul(js[i], js[i])
  {
    seq(|js|, i requires 0 <= i < |js| => Mul(js[i], js[i]))
  }

  /** The parameter derivatives of a squared series depend only on the
      series' own parameter derivatives. */
  lemma SquareCoefficients(a: Jet, i: nat)
    requires i <= 2
    ensures D(Mul(a, a), 0, i)
         == D(Mul(SeriesP(D(a, 0, 0), D(a, 0, 1), D(a, 0, 2)), SeriesP(D(a, 0, 0), D(a, 0, 1), D(a, 0, 2))), 0, i)
  {
    var b := SeriesP(D(a, 0, 0), D(a, 0, 1), D(a, 0, 2));
    assert b.c00 == a.c00 && b.c01 == a.c01 && b.c02 == a.c02;
    SquareParameterPart(a, b);
  }

  /** Two series that agree in their pure parameter coefficients have
      squares that agree there too. */
  lemma SquareParameterPart(a: Jet, b: Jet)
    requires a.c00 == b.c00 && a.c01 == b.c01 && a.c02 == b.c02
    ensures Mul(a, a).c00 == Mul(b, b).c00 && Mul(a, a).c01 == Mul(b, b).c01 && Mul(a, a).c02 == Mul(b, b).c02
  {
  }

  /** A residual at one training point with its first two derivatives along
      one parameter. */
  datatype Residual = Residual(r: real, dr: real, d2r: real)

  /** The residuals, their first and their second parameter derivatives. */
  function Values(rs: seq<Residual>): (r: seq<real>)
    ensures |r| == |rs|
    ensures forall i :: 0 <= i < |rs| ==> r[i] == rs[i].r
  {
    seq(|rs|, i requires 0 <= i < |rs| => rs[i].r)
  }

  function Slopes(rs: seq<Residual>): (d: seq<real>)
    ensures |d| == |rs|
    ensures forall i :: 0 <= i < |rs| ==> d[i] == rs[i].dr
  {
    seq(|rs|, i requires 0 <= i < |rs| => rs[i].dr)
  }

  function Bends(rs: seq<Residual>): (d: seq<real>)
    ensures |d| == |rs|
    ensures forall i :: 0 <= i < |rs| ==> d[i] == rs[i].d2r
  {
    seq(|rs|, i requires 0 <= i < |rs| => rs[i].d2r)
  }

  /** dE along one parameter from the residuals and their sensitivities. */
  function ErrorGradient(rs: seq<Residual>): (g: real)
    ensures AllZero(Values(rs)) ==> g == 0.0
  {
    Grad(Values(rs), Slopes(rs))
  }

  /** d2E along one parameter from the residuals and their sensitivities. */
  function ErrorCurvature(rs: seq<Residual>): (c: real)
    ensures AllZero(Values(rs)) ==> c >= 0.0 && (c == 0.0 <==> AllZero(Slopes(rs)))
  {
    Curv(Values(rs), Slopes(rs), Bends(rs))
  }

  /** When each residual and its sensitivities are the value and parameter
      derivatives of a series, E, dE and d2E are those of the summed squared
      series. */
  lemma SquaredJets(js: seq<Jet>, rs: seq<Residual>)
    requires |rs| == |js|
    requires forall i :: 0 <= i < |js| ==> rs[i] == Residual(D(js[i], 0, 0), D(js[i], 0, 1), D(js[i], 0, 2))
    ensures D(JetSum(Squared(js)), 0, 0) == Error(Values(rs))
    ensures D(JetSum(Squared(js)), 0, 1) == ErrorGradient(rs)
    ensures D(JetSum(Squared(js)), 0, 2) == ErrorCurvature(rs)
  {
    var sq := SquaredSeries(Values(rs), Slopes(rs), Bends(rs));
    ErrorSeries(Values(rs), Slopes(rs), Bends(rs));
    forall n: nat | n <= 2
      ensures D(JetSum(Squared(js)), 0, n) == D(JetSum(sq), 0, n)
    {
      forall i | 0 <= i < |js|
        ensures Derivatives(Squared(js), 0, n)[i] == Derivatives(sq, 0, n)[i]
      {
        SquareCoefficients(js[i], n);
      }
      assert Derivatives(Squared(js), 0, n) == Derivatives(sq, 0, n);
      JetSumDerivative(Squared(js), 0, n);
      JetSumDerivative(sq, 0, n);
    }
  }

  /** The diagonal Newton update of the two ODE solvers:
      p[j] - eta * g[j] / c[j], for every j from the same snapshot. Both solvers
      divide unguarded, so a zero curvature is excluded here and reported by
      each solver's epoch instead. With a non-zero rate the step leaves p[j]
      in place exactly when g[j] is zero, and with a positive rate and
      positive curvature it moves p[j] against the gradient. */
  function NewtonStep(p: seq<real>, g: seq<real>, c: seq<real>, eta: real): (r: seq<real>)
    requires |g| == |p| && |c| == |p|
    requires forall j :: 0 <= j < |c| ==> c[j] != 0.0
    ensures |r| == |p|
    ensures forall j :: 0 <= j < |p| ==> (r[j] == p[j] <==> g[j] == 0.0 || eta == 0.0)
    ensures eta > 0.0 ==> forall j :: 0 <= j < |p| && c[j] > 0.0 ==> (r[j] < p[j] <==> g[j] > 0.0)
  {
    seq(|p|, j requires 0 <= j < |p| => p[j] - eta * g[j] / c[j])
  }

  /** The plain gradient-descent update of the PDE solver: p[j] - eta * g[j].
      With a non-zero rate p[j] stays exactly when g[j] is zero, and with a
      positive rate it moves against the gradient. */
  function DescentStep(p: seq<real>, g: seq<real>, eta: real): (r: seq<real>)
    requires |g| == |p|
    ensures |r| == |p|
    ensures forall j :: 0 <= j < |p| ==> (r[j] == p[j] <==> g[j] == 0.0 || eta == 0.0)
    ensures eta > 0.0 ==> forall j :: 0 <= j < |p| ==> (r[j] < p[j] <==> g[j] > 0.0)
  {
    seq(|p|, j requires 0 <= j < |p| => p[j] - eta * g[j])
  }

  /** All-zero gradients leave a parameter array unchanged under either rule. */
  lemma StepsFixZeroGradient(p: seq<real>, g: seq<real>, c: seq<real>, eta: real)
    requires |g| == |p| && |c| == |p|
    requires AllZero(g)
    ensures DescentStep(p, g, eta) == p
    ensures (forall j :: 0 <= j < |c| ==> c[j] != 0.0) ==> NewtonStep(p, g, c, eta) == p
  {
  }
}
