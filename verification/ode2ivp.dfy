/** The second-order initial value solver of nnode2ivp.py:
    d2y/dx2 = F(x, y, dy/dx) with y(0) = A and dy/dx(0) = Ap.

    The trial solution yt(x) = A + x * Ap + x^2 * N(x) meets both initial
    conditions for every network output; training drives the residual
    d2yt/dx2 - F(x, yt, dyt/dx) towards zero at the training points by a
    diagonal Newton step on every parameter. */
module Ode2Ivp {
  import opened Sums
  import opened Jets
  import opened Activation
  import opened Errors
  import opened Sensitivity
  import opened Network1
  import opened UnitJets

  /** The equation, its initial values, and the first two partials of F in
      its y argument, all supplied by the caller. */
  datatype Problem = Problem(F: (real, real, real) -> real, dF_dy: (real, real, real) -> real,
                             d2F_dy2: (real, real, real) -> real, A: real, Ap: real)

  /** The trial solution at x for network output n. */
  function YTrial(A: real, Ap: real, x: real, n: real): (y: real)
    ensures x == 0.0 ==> y == A
  {
    A + x * Ap + n * (x * x)
  }

  /** Its first x-derivative, for network output n and slope nx. */
  function DYTrial(A: real, Ap: real, x: real, n: real, nx: real): (dy: real)
    ensures x == 0.0 ==> dy == Ap
  {
    Ap + n * 2.0 * x + nx * (x * x)
  }

  /** Its second x-derivative, for network output n, slope nx and bend nxx. */
  function D2YTrial(x: real, n: real, nx: real, nxx: real): (d2y: real)
    ensures x == 0.0 ==> d2y == 2.0 * n
  {
    n * 2.0 + nx * 2.0 * x + nx * 2.0 * x + nxx * (x * x)
  }

  /** For a constant network output the trial solution is a quadratic in x,
      so its first two derivatives give its Taylor expansion exactly. */
  lemma ConstantOutputTaylor(A: real, Ap: real, x: real, h: real, n: real)
    ensures YTrial(A, Ap, x + h, n) - YTrial(A, Ap, x, n)
         == h * DYTrial(A, Ap, x, n, 0.0) + h * h / 2.0 * D2YTrial(x, n, 0.0, 0.0)
  {
    assert (x + h) * (x + h) == x * x + 2.0 * x * h + h * h;
  }

  /** The trial solution's sensitivities along one parameter from the
      network's partials `q`, laid out like `q`: dyt/dp, d2yt/dp2,
      d2yt/dpdx, d3yt/dp2dx, d3yt/dpdx2 and d4yt/dp2dx2. The factor x^2 makes
      all but the last two vanish at x = 0, and a parameter on which the
      network depends linearly leaves every second parameter partial zero. */
  function TrialSensitivity(x: real, q: Partials): (t: Partials)
    ensures x == 0.0 ==> t == Partials(0.0, 0.0, 0.0, 0.0, 2.0 * q.dp, 2.0 * q.dpp)
    ensures q.dpp == 0.0 && q.dppx == 0.0 && q.dppxx == 0.0 ==> t.dpp == 0.0 && t.dppx == 0.0 && t.dppxx == 0.0
  {
    Partials(q.dp * (x * x), q.dpp * (x * x),
             q.dp * 2.0 * x + q.dpx * (x * x), q.dpp * 2.0 * x + q.dppx * (x * x),
             q.dp * 2.0 + 4.0 * q.dpx * x + q.dpxx * (x * x),
             q.dpp * 2.0 + 4.0 * q.dppx * x + q.dppxx * (x * x))
  }

  /** Along an output weight every second partial of the trial solution is
      zero. */
  lemma TrialOutputWeightFlat(act: Sigmoid, p: Params, k: nat, x: real)
    requires p.Valid() && k < |p.v|
    ensures TrialSensitivity(x, UnitPartials(act, p, V, k, x)).dpp == 0.0
    ensures TrialSensitivity(x, UnitPartials(act, p, V, k, x)).dppx == 0.0
    ensures TrialSensitivity(x, UnitPartials(act, p, V, k, x)).dppxx == 0.0
  {
    OutputWeightLinear(act, p, k, x);
  }

  /** The residual d2yt/dx2 - F(x, yt, dyt/dx) at x for network output n,
      slope nx and bend nxx. */
  function ResidualAt(prob: Problem, x: real, n: real, nx: real, nxx: real): real
  {
    D2YTrial(x, n, nx, nxx) - prob.F(x, YTrial(prob.A, prob.Ap, x, n), DYTrial(prob.A, prob.Ap, x, n, nx))
  }

  /** The residual at x and its first two derivatives along one parameter.
      F is chained through its y argument alone, by dF/dy and d2F/dy2 at
      (x, yt, dyt/dx); its dependence on dy/dx is not differentiated. At
      x = 0 the trial solution does not move, so the residual's
      sensitivities are twice the network's. */
  function PointResidual(prob: Problem, x: real, n: real, nx: real, nxx: real, q: Partials): (res: Residual)
    ensures res.r == ResidualAt(prob, x, n, nx, nxx)
    ensures x == 0.0 ==> res.dr == 2.0 * q.dp && res.d2r == 2.0 * q.dpp
  {
    var yt := YTrial(prob.A, prob.Ap, x, n);
    var dyt := DYTrial(prob.A, prob.Ap, x, n, nx);
    var t := TrialSensitivity(x, q);
    var df := prob.dF_dy(x, yt, dyt);
    var d2f := prob.d2F_dy2(x, yt, dyt);
    Residual(ResidualAt(prob, x, n, nx, nxx), t.dpxx - df * t.dp, t.dppxx - (df * t.dpp + d2f * (t.dp * t.dp)))
  }

  /** The residual at every training point. */
  function Residuals(act: Sigmoid, prob: Problem, xs: seq<real>, p: Params): (r: seq<real>)
    requires p.Valid()
    ensures |r| == |xs|
  {
    seq(|xs|, i requires 0 <= i < |xs| => ResidualAt(prob, xs[i], N(act, p, xs[i]), Nx(act, p, xs[i]), Nxx(act, p, xs[i])))
  }

  /** The residual at every training point with its sensitivities along
      parameter k of family `fam`. */
  function PointResiduals(act: Sigmoid, prob: Problem, xs: seq<real>, p: Params, fam: Family, k: nat): (rs: seq<Residual>)
    requires p.Valid() && k < |p.v|
    ensures |rs| == |xs|
    ensures Values(rs) == Residuals(act, prob, xs, p)
  {
    seq(|xs|, i requires 0 <= i < |xs| =>
      PointResidual(prob, xs[i], N(act, p, xs[i]), Nx(act, p, xs[i]), Nxx(act, p, xs[i]), UnitPartials(act, p, fam, k, xs[i])))
  }

  /** The first partial of E along every parameter of one family. */
  function FamilyGradient(act: Sigmoid, prob: Problem, xs: seq<real>, p: Params, fam: Family): (g: seq<real>)
    requires p.Valid()
    ensures |g| == |p.v|
    ensures AllZero(Residuals(act, prob, xs, p)) ==> AllZero(g)
  {
    seq(|p.v|, k requires 0 <= k < |p.v| => ErrorGradient(PointResiduals(act, prob, xs, p, fam, k)))
  }

  /** The second partial of E along every parameter of one family. */
  function FamilyCurvature(act: Sigmoid, prob: Problem, xs: seq<real>, p: Params, fam: Family): (c: seq<real>)
    requires p.Valid()
    ensures |c| == |p.v|
    ensures AllZero(Residuals(act, prob, xs, p)) ==> forall k :: 0 <= k < |c| ==> c[k] >= 0.0
  {
    seq(|p.v|, k requires 0 <= k < |p.v| => ErrorCurvature(PointResiduals(act, prob, xs, p, fam, k)))
  }

  /** dE for every parameter, arranged like the parameters. */
  function Gradient(act: Sigmoid, prob: Problem, xs: seq<real>, p: Params): (g: Params)
    requires p.Valid()
    ensures |g.v| == |g.u| == |g.w| == |p.v|
    ensures AllZero(Residuals(act, prob, xs, p)) ==> ZeroGradient(g)
  {
    Params(FamilyGradient(act, prob, xs, p, V), FamilyGradient(act, prob, xs, p, U), FamilyGradient(act, prob, xs, p, W))
  }

  /** d2E for every parameter, arranged like the parameters. */
  function Curvature(act: Sigmoid, prob: Problem, xs: seq<real>, p: Params): (c: Params)
    requires p.Valid()
    ensures |c.v| == |c.u| == |c.w| == |p.v|
  {
    Params(FamilyCurvature(act, prob, xs, p, V), FamilyCurvature(act, prob, xs, p, U), FamilyCurvature(act, prob, xs, p, W))
  }

  /** One training epoch: every parameter takes a diagonal Newton step from
      the same snapshot. It fails exactly when some second partial is zero.
      A snapshot that solves the equation at every training point is a fixed
      point. */
  function Epoch(act: Sigmoid, prob: Problem, xs: seq<real>, p: Params, eta: real): (o: Result<Params>)
    requires p.Valid()
    ensures o.Success? <==> NonzeroCurvature(Curvature(act, prob, xs, p))
    ensures o.Success? ==> o.value.Valid() && |o.value.v| == |p.v|
    ensures o.Success? && AllZero(Residuals(act, prob, xs, p)) ==> o.value == p
  {
    var c := Curvature(act, prob, xs, p);
    if NonzeroCurvature(c) then Success(NewtonUpdate(p, Gradient(act, prob, xs, p), c, eta))
    else SingularCurvature(0)
  }

  /** The snapshot after `epochs` epochs, or the index of the first epoch
      that met a zero second partial. */
  function Run(act: Sigmoid, prob: Problem, xs: seq<real>, p: Params, eta: real, epochs: nat): (o: Result<Params>)
    requires p.Valid()
    ensures o.Success? ==> o.value.Valid() && |o.value.v| == |p.v|
    ensures o.SingularCurvature? ==> o.epoch < epochs
    decreases epochs
  {
    if epochs == 0 then Success(p)
    else
      match Epoch(act, prob, xs, p, eta)
      case SingularCurvature(_) => SingularCurvature(0)
      case Success(q) =>
        match Run(act, prob, xs, q, eta, epochs - 1)
        case Success(r) => Success(r)
        case SingularCurvature(e) => SingularCurvature(e + 1)
  }

  /** A snapshot that solves the equation at every training point, with no
      zero second partial, stays put however long training runs. */
  lemma {:induction false} RunFixedPoint(act: Sigmoid, prob: Problem, xs: seq<real>, p: Params, eta: real, epochs: nat)
    requires p.Valid()
    requires AllZero(Residuals(act, prob, xs, p)) && NonzeroCurvature(Curvature(act, prob, xs, p))
    ensures Run(act, prob, xs, p, eta, epochs) == Success(p)
    decreases epochs
  {
    if epochs > 0 {
      RunFixedPoint(act, prob, xs, p, eta, epochs - 1);
    }
  }

  /** The trained trial solution and its first two derivatives at the
      training points. */
  datatype Solution = Solution(yt: seq<real>, dyt: seq<real>, d2yt: seq<real>)

  /** The trial solution and its derivatives at every training point; at
      x = 0 they are A, Ap and twice the network output. */
  function TrialSolution(act: Sigmoid, prob: Problem, xs: seq<real>, p: Params): (s: Solution)
    requires p.Valid()
    ensures |s.yt| == |xs| && |s.dyt| == |xs| && |s.d2yt| == |xs|
    ensures forall i :: 0 <= i < |xs| && xs[i] == 0.0 ==>
      s.yt[i] == prob.A && s.dyt[i] == prob.Ap && s.d2yt[i] == 2.0 * N(act, p, xs[i])
  {
    Solution(seq(|xs|, i requires 0 <= i < |xs| => YTrial(prob.A, prob.Ap, xs[i], N(act, p, xs[i]))),
             seq(|xs|, i requires 0 <= i < |xs| => DYTrial(prob.A, prob.Ap, xs[i], N(act, p, xs[i]), Nx(act, p, xs[i]))),
             seq(|xs|, i requires 0 <= i < |xs| => D2YTrial(xs[i], N(act, p, xs[i]), Nx(act, p, xs[i]), Nxx(act, p, xs[i]))))
  }

  /** Training for `maxepochs` epochs. The values returned are those computed
      in the last epoch, before its update, so they come from the snapshot
      after maxepochs - 1 updates, and they meet both initial conditions at
      every training point that is 0.
      Like the argument checks of nnode2ivp.py, it asks for at least one training
      point, one hidden unit and one epoch, and a positive learning rate. */
  function Train(act: Sigmoid, prob: Problem, xs: seq<real>, p0: Params, maxepochs: nat, eta: real): (o: Result<Solution>)
    requires p0.Valid() && |p0.v| > 0 && |xs| > 0 && maxepochs > 0 && eta > 0.0
    ensures o.Success? ==> |o.value.yt| == |xs| && |o.value.dyt| == |xs| && |o.value.d2yt| == |xs|
    ensures o.Success? ==> forall i :: 0 <= i < |xs| && xs[i] == 0.0 ==>
      o.value.yt[i] == prob.A && o.value.dyt[i] == prob.Ap
    ensures o.SingularCurvature? ==> o.epoch < maxepochs - 1
    ensures o.Success? <==> Run(act, prob, xs, p0, eta, maxepochs - 1).Success?
    ensures o.Success? ==> o.value == TrialSolution(act, prob, xs, Run(act, prob, xs, p0, eta, maxepochs - 1).value)
  {
    match Run(act, prob, xs, p0, eta, maxepochs - 1)
    case Success(q) => Success(TrialSolution(act, prob, xs, q))
    case SingularCurvature(e) => SingularCurvature(e)
  }

  /** Training from a snapshot that already solves the equation at every
      training point, with no zero second partial, returns that snapshot's
      trial solution. */
  lemma TrainSolved(act: Sigmoid, prob: Problem, xs: seq<real>, p0: Params, maxepochs: nat, eta: real)
    requires p0.Valid() && |p0.v| > 0 && |xs| > 0 && maxepochs > 0 && eta > 0.0
    requires AllZero(Residuals(act, prob, xs, p0)) && NonzeroCurvature(Curvature(act, prob, xs, p0))
    ensures Train(act, prob, xs, p0, maxepochs, eta) == Success(TrialSolution(act, prob, xs, p0))
  {
    RunFixedPoint(act, prob, xs, p0, eta, maxepochs - 1);
  }

  /** The trial solution as a jet, from the network output's jet `nj`:
      A + x * Ap + x^2 * N, with x the input variable. */
  function TrialJet(A: real, Ap: real, x: real, nj: Jet): Jet
  {
    Add(Add(Const(A), Scale(Ap, VarX(x))), Mul(Mul(VarX(x), VarX(x)), nj))
  }

  /** By the product rule, the trial jet's value and x-derivatives are
      YTrial, DYTrial and D2YTrial, and it carries the sensitivities
      TrialSensitivity lists, whenever the network jet has value n, slope nx,
      bend nxx and partials q. */
  lemma TrialJetDerivatives(A: real, Ap: real, x: real, nj: Jet, c: Contribution, q: Partials)
    requires HasValues(nj, c) && Carries(nj, q)
    ensures D(TrialJet(A, Ap, x, nj), 0, 0) == YTrial(A, Ap, x, c.n)
    ensures D(TrialJet(A, Ap, x, nj), 1, 0) == DYTrial(A, Ap, x, c.n, c.nx)
    ensures D(TrialJet(A, Ap, x, nj), 2, 0) == D2YTrial(x, c.n, c.nx, c.nxx)
    ensures Carries(TrialJet(A, Ap, x, nj), TrialSensitivity(x, q))
  {
    assert Mul(VarX(x), VarX(x)) == Jet(x * x, 0.0, 0.0, 2.0 * x, 0.0, 0.0, 1.0, 0.0, 0.0);
  }

  /** The residual d2yt/dx2 - F(x, yt, dyt/dx) at x as a series in the
      parameter, from the trial jet `tj`, with F composed along its y
      argument and its dy/dx argument held at the snapshot's value, as the
      chained sensitivities have it. */
  function ResidualJet(prob: Problem, x: real, tj: Jet): Jet
  {
    var yt := D(tj, 0, 0);
    var dyt := D(tj, 1, 0);
    Add(SeriesP(D(tj, 2, 0), D(tj, 2, 1), D(tj, 2, 2)),
        Scale(-1.0, Compose(prob.F(x, yt, dyt), prob.dF_dy(x, yt, dyt), prob.d2F_dy2(x, yt, dyt), 0.0, 0.0,
                            SeriesP(yt, D(tj, 0, 1), D(tj, 0, 2)))))
  }

  /** The chained residual sensitivities of PointResidual are the parameter
      derivatives of the residual series built from the network output's
      jet. */
  lemma PointResidualSeries(prob: Problem, x: real, nj: Jet, c: Contribution, q: Partials)
    requires HasValues(nj, c) && Carries(nj, q)
    ensures PointResidual(prob, x, c.n, c.nx, c.nxx, q)
         == Residual(D(ResidualJet(prob, x, TrialJet(prob.A, prob.Ap, x, nj)), 0, 0),
                     D(ResidualJet(prob, x, TrialJet(prob.A, prob.Ap, x, nj)), 0, 1),
                     D(ResidualJet(prob, x, TrialJet(prob.A, prob.Ap, x, nj)), 0, 2))
  {
    var tj := TrialJet(prob.A, prob.Ap, x, nj);
    TrialJetDerivatives(prob.A, prob.Ap, x, nj, c, q);
    var yt := D(tj, 0, 0);
    var dyt := D(tj, 1, 0);
    ComposeSeriesP(prob.F(x, yt, dyt), prob.dF_dy(x, yt, dyt), prob.d2F_dy2(x, yt, dyt), 0.0, 0.0, yt, D(tj, 0, 1), D(tj, 0, 2));
  }

  /** Along parameter k of family `fam`, the residual at x and the
      sensitivities PointResidual chains by hand are the value and the first
      two parameter derivatives of the residual built from the network's
      jet by the jet operations alone. */
  lemma ResidualDerivatives(act: Sigmoid, prob: Problem, p: Params, fam: Family, k: nat, x: real)
    requires p.Valid() && k < |p.v|
    ensures PointResidual(prob, x, N(act, p, x), Nx(act, p, x), Nxx(act, p, x), UnitPartials(act, p, fam, k, x))
         == Residual(D(ResidualJet(prob, x, TrialJet(prob.A, prob.Ap, x, NetJet(act, p, fam, k, x))), 0, 0),
                     D(ResidualJet(prob, x, TrialJet(prob.A, prob.Ap, x, NetJet(act, p, fam, k, x))), 0, 1),
                     D(ResidualJet(prob, x, TrialJet(prob.A, prob.Ap, x, NetJet(act, p, fam, k, x))), 0, 2))
  {
    NetJetDerivatives(act, p, fam, k, x);
    PointResidualSeries(prob, x, NetJet(act, p, fam, k, x), Contribution(N(act, p, x), Nx(act, p, x), Nxx(act, p, x)),
                        UnitPartials(act, p, fam, k, x));
  }

  /** The residual series at every training point along parameter k of
      family `fam`, built from the network's jet. */
  function ResidualJets(act: Sigmoid, prob: Problem, xs: seq<real>, p: Params, fam: Family, k: nat): (js: seq<Jet>)
    requires p.Valid() && k < |p.v|
    ensures |js| == |xs|
  {
    seq(|xs|, i requires 0 <= i < |xs| => ResidualJet(prob, xs[i], TrialJet(prob.A, prob.Ap, xs[i], NetJet(act, p, fam, k, xs[i]))))
  }

  /** E and the accumulated dE and d2E along parameter k of family `fam` are
      the value and the first two parameter derivatives of the sum of the
      squared residual series.
      As in ResidualJet, F's dy/dx argument is held at the snapshot's value. */
  lemma ErrorDerivatives(act: Sigmoid, prob: Problem, xs: seq<real>, p: Params, fam: Family, k: nat)
    requires p.Valid() && k < |p.v|
    ensures D(JetSum(Squared(ResidualJets(act, prob, xs, p, fam, k))), 0, 0) == Error(Residuals(act, prob, xs, p))
    ensures D(JetSum(Squared(ResidualJets(act, prob, xs, p, fam, k))), 0, 1) == FamilyGradient(act, prob, xs, p, fam)[k]
    ensures D(JetSum(Squared(ResidualJets(act, prob, xs, p, fam, k))), 0, 2) == FamilyCurvature(act, prob, xs, p, fam)[k]
  {
    var rs := PointResiduals(act, prob, xs, p, fam, k);
    var js := ResidualJets(act, prob, xs, p, fam, k);
    forall i | 0 <= i < |xs|
      ensures rs[i] == Residual(D(js[i], 0, 0), D(js[i], 0, 1), D(js[i], 0, 2))
    {
      ResidualDerivatives(act, prob, p, fam, k, xs[i]);
    }
    SquaredJets(js, rs);
  }
}
