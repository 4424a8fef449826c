/** The first-order solver of nnode1.py: dy/dx = F(x, y) with y(b) = A.

    The trial solution yt(x) = A + (x - b) * N(x) meets the condition for every
    network output; training drives the residual dyt/dx - F(x, yt) towards zero
    at the training points by a diagonal Newton step on every parameter. */
module Ode1 {
  import opened Sums
  import opened Jets
  import opened Activation
  import opened Errors
  import opened Sensitivity
  import opened Network1
  import opened UnitJets

  /** The equation, its condition y(b) = A, and the first two y-partials of F,
      all supplied by the caller. */
  datatype Problem = Problem(F: (real, real) -> real, dF_dy: (real, real) -> real,
                             d2F_dy2: (real, real) -> real, b: real, A: real)

  /** The trial solution at x for network output n; it is A at x = b whatever
      the network does. */
  function YTrial(A: real, b: real, x: real, n: real): (y: real)
    ensures x == b ==> y == A
  {
    A + (x - b) * n
  }

  /** The trial solution's x-derivative for network output n and slope ng; at
      x = b it is the network output itself. */
  function DYTrial(A: real, b: real, x: real, n: real, ng: real): (dy: real)
    ensures x == b ==> dy == n
  {
    (x - b) * ng + n
  }

  /** The sensitivities of the trial solution along one parameter:
      dyt/dp, d2yt/dp2, d2yt/dpdx and d3yt/dp2dx. */
  datatype TrialPartials = TrialPartials(dp: real, dpp: real, dpx: real, dppx: real)

  /** The trial solution's sensitivities from the network's partials `q`. The
      two pure parameter sensitivities carry the factor (x - b), so they vanish
      at the boundary point, where the mixed ones reduce to the network's. */
  function TrialSensitivity(b: real, x: real, q: Partials): (t: TrialPartials)
    ensures x == b ==> t == TrialPartials(0.0, 0.0, q.dp, q.dpp)
  {
    TrialPartials((x - b) * q.dp, (x - b) * q.dpp, (x - b) * q.dpx + q.dp, (x - b) * q.dppx + q.dpp)
  }

  /** Along an output weight the trial solution's second sensitivities
      d2yt/dv2 and d3yt/dv2dx are zero at every x. */
  lemma TrialOutputWeightFlat(act: Sigmoid, p: Params, k: nat, b: real, x: real)
    requires p.Valid() && k < |p.v|
    ensures TrialSensitivity(b, x, UnitPartials(act, p, V, k, x)).dpp == 0.0
    ensures TrialSensitivity(b, x, UnitPartials(act, p, V, k, x)).dppx == 0.0
  {
    OutputWeightLinear(act, p, k, x);
  }

  /** The residual dyt/dx - F(x, yt) at x for network output n and slope ng. */
  function ResidualAt(prob: Problem, x: real, n: real, ng: real): real
  {
    DYTrial(prob.A, prob.b, x, n, ng) - prob.F(x, YTrial(prob.A, prob.b, x, n))
  }

  /** The residual at x and its first two derivatives along one parameter,
      chained through F by dF/dy and d2F/dy2 at yt. At the boundary point yt
      does not move, so the residual's sensitivities are the network's. */
  function PointResidual(prob: Problem, x: real, n: real, ng: real, q: Partials): (res: Residual)
    ensures res.r == ResidualAt(prob, x, n, ng)
    ensures x == prob.b ==> res.dr == q.dp && res.d2r == q.dpp
  {
    var yt := YTrial(prob.A, prob.b, x, n);
    var t := TrialSensitivity(prob.b, x, q);
    var df := prob.dF_dy(x, yt);
    var d2f := prob.d2F_dy2(x, yt);
    Residual(ResidualAt(prob, x, n, ng), t.dpx - df * t.dp, t.dppx - (df * t.dpp + d2f * (t.dp * t.dp)))
  }

  /** The residual at every training point. */
  function Residuals(act: Sigmoid, prob: Problem, xs: seq<real>, p: Params): (r: seq<real>)
    requires p.Valid()
    ensures |r| == |xs|
  {
    seq(|xs|, i requires 0 <= i < |xs| => ResidualAt(prob, xs[i], N(act, p, xs[i]), Nx(act, p, xs[i])))
  }

  /** The residual at every training point with its sensitivities along
      parameter k of family `fam`. */
  function PointResiduals(act: Sigmoid, prob: Problem, xs: seq<real>, p: Params, fam: Family, k: nat): (rs: seq<Residual>)
    requires p.Valid() && k < |p.v|
    ensures |rs| == |xs|
    ensures Values(rs) == Residuals(act, prob, xs, p)
  {
    seq(|xs|, i requires 0 <= i < |xs| =>
      PointResidual(prob, xs[i], N(act, p, xs[i]), Nx(act, p, xs[i]), UnitPartials(act, p, fam, k, xs[i])))
  }

  /** The first partial of E along every parameter of one family. */
  function FamilyGradient(act: Sigmoid, prob: Problem, xs: seq<real>, p: Params, fam: Family): (g: seq<real>)
    requires p.Valid()
    ensures |g| == |p.v|
    ensures AllZero(Residuals(act, prob, xs, p)) ==> AllZero(g)
  {
    seq(|p.v|, k requires 0 <= k < |p.v| => ErrorGradient(PointResiduals(act, prob, xs, p, fam, k)))
  }

  /** The second partial of E along every parameter of one family. */
  function FamilyCurvature(act: Sigmoid, prob: Problem, xs: seq<real>, p: Params, fam: Family): (c: seq<real>)
    requires p.Valid()
    ensures |c| == |p.v|
    ensures AllZero(Residuals(act, prob, xs, p)) ==> forall k :: 0 <= k < |c| ==> c[k] >= 0.0
  {
    seq(|p.v|, k requires 0 <= k < |p.v| => ErrorCurvature(PointResiduals(act, prob, xs, p, fam, k)))
  }

  /** dE for every parameter, arranged like the parameters. */
  function Gradient(act: Sigmoid, prob: Problem, xs: seq<real>, p: Params): (g: Params)
    requires p.Valid()
    ensures |g.v| == |g.u| == |g.w| == |p.v|
    ensures AllZero(Residuals(act, prob, xs, p)) ==> ZeroGradient(g)
  {
    Params(FamilyGradient(act, prob, xs, p, V), FamilyGradient(act, prob, xs, p, U), FamilyGradient(act, prob, xs, p, W))
  }

  /** d2E for every parameter, arranged like the parameters. */
  function Curvature(act: Sigmoid, prob: Problem, xs: seq<real>, p: Params): (c: Params)
    requires p.Valid()
    ensures |c.v| == |c.u| == |c.w| == |p.v|
  {
    Params(FamilyCurvature(act, prob, xs, p, V), FamilyCurvature(act, prob, xs, p, U), FamilyCurvature(act, prob, xs, p, W))
  }

  /** One training epoch: every parameter takes a diagonal Newton step from
      the same snapshot. It fails exactly when some second partial is zero.
      A snapshot that solves the equation at every training point is a fixed
      point. */
  function Epoch(act: Sigmoid, prob: Problem, xs: seq<real>, p: Params, eta: real): (o: Result<Params>)
    requires p.Valid()
    ensures o.Success? <==> NonzeroCurvature(Curvature(act, prob, xs, p))
    ensures o.Success? ==> o.value.Valid() && |o.value.v| == |p.v|
    ensures o.Success? && AllZero(Residuals(act, prob, xs, p)) ==> o.value == p
  {
    var c := Curvature(act, prob, xs, p);
    if NonzeroCurvature(c) then Success(NewtonUpdate(p, Gradient(act, prob, xs, p), c, eta))
    else SingularCurvature(0)
  }

  /** The snapshot after `epochs` epochs, or the index of the first epoch
      that met a zero second partial. */
  function Run(act: Sigmoid, prob: Problem, xs: seq<real>, p: Params, eta: real, epochs: nat): (o: Result<Params>)
    requires p.Valid()
    ensures o.Success? ==> o.value.Valid() && |o.value.v| == |p.v|
    ensures o.SingularCurvature? ==> o.epoch < epochs
    decreases epochs
  {
    if epochs == 0 then Success(p)
    else
      match Epoch(act, prob, xs, p, eta)
      case SingularCurvature(_) => SingularCurvature(0)
      case Success(q) =>
        match Run(act, prob, xs, q, eta, epochs - 1)
        case Success(r) => Success(r)
        case SingularCurvature(e) => SingularCurvature(e + 1)
  }

  /** A snapshot that solves the equation at every training point, with no
      zero second partial, stays put however long training runs. */
  lemma {:induction false} RunFixedPoint(act: Sigmoid, prob: Problem, xs: seq<real>, p: Params, eta: real, epochs: nat)
    requires p.Valid()
    requires AllZero(Residuals(act, prob, xs, p)) && NonzeroCurvature(Curvature(act, prob, xs, p))
    ensures Run(act, prob, xs, p, eta, epochs) == Success(p)
    decreases epochs
  {
    if epochs > 0 {
      RunFixedPoint(act, prob, xs, p, eta, epochs - 1);
    }
  }

  /** The trained trial solution and its derivative at the training points. */
  datatype Solution = Solution(yt: seq<real>, dyt: seq<real>)

  /** The trial solution and its derivative at every training point. */
  function TrialSolution(act: Sigmoid, prob: Problem, xs: seq<real>, p: Params): (s: Solution)
    requires p.Valid()
    ensures |s.yt| == |xs| && |s.dyt| == |xs|
    ensures forall i :: 0 <= i < |xs| && xs[i] == prob.b ==>
      s.yt[i] == prob.A && s.dyt[i] == N(act, p, xs[i])
  {
    Solution(seq(|xs|, i requires 0 <= i < |xs| => YTrial(prob.A, prob.b, xs[i], N(act, p, xs[i]))),
             seq(|xs|, i requires 0 <= i < |xs| => DYTrial(prob.A, prob.b, xs[i], N(act, p, xs[i]), Nx(act, p, xs[i]))))
  }

  /** Training for `maxepochs` epochs. The values returned are those computed
      in the last epoch, before its update, so they come from the snapshot
      after maxepochs - 1 updates, and they meet the condition y(b) = A at
      every training point that is b.
      Like the argument checks of nnode1.py, it asks for at least one training
      point, one hidden unit and one epoch, and a positive learning rate. */
  function Train(act: Sigmoid, prob: Problem, xs: seq<real>, p0: Params, maxepochs: nat, eta: real): (o: Result<Solution>)
    requires p0.Valid() && |p0.v| > 0 && |xs| > 0 && maxepochs > 0 && eta > 0.0
    ensures o.Success? ==> |o.value.yt| == |xs| && |o.value.dyt| == |xs|
    ensures o.Success? ==> forall i :: 0 <= i < |xs| && xs[i] == prob.b ==> o.value.yt[i] == prob.A
    ensures o.SingularCurvature? ==> o.epoch < maxepochs - 1
    ensures o.Success? <==> Run(act, prob, xs, p0, eta, maxepochs - 1).Success?
    ensures o.Success? ==> o.value == TrialSolution(act, prob, xs, Run(act, prob, xs, p0, eta, maxepochs - 1).value)
  {
    match Run(act, prob, xs, p0, eta, maxepochs - 1)
    case Success(q) => Success(TrialSolution(act, prob, xs, q))
    case SingularCurvature(e) => SingularCurvature(e)
  }

  /** Training from a snapshot that already solves the equation at every
      training point, with no zero second partial, returns that snapshot's
      trial solution. */
  lemma TrainSolved(act: Sigmoid, prob: Problem, xs: seq<real>, p0: Params, maxepochs: nat, eta: real)
    requires p0.Valid() && |p0.v| > 0 && |xs| > 0 && maxepochs > 0 && eta > 0.0
    requires AllZero(Residuals(act, prob, xs, p0)) && NonzeroCurvature(Curvature(act, prob, xs, p0))
    ensures Train(act, prob, xs, p0, maxepochs, eta) == Success(TrialSolution(act, prob, xs, p0))
  {
    RunFixedPoint(act, prob, xs, p0, eta, maxepochs - 1);
  }

  /** The trial solution as a jet, from the network output's jet `nj`:
      A + (x - b) * N, with x the input variable. */
  function TrialJet(A: real, b: real, x: real, nj: Jet): Jet
  {
    Add(Const(A), Mul(Add(VarX(x), Const(-b)), nj))
  }

  /** The factor x - b as a jet in the input variable. */
  lemma OffsetJet(b: real, x: real)
    ensures Add(VarX(x), Const(-b)) == Jet(x - b, 0.0, 0.0, 1.0, 0.0, 0.0, 0.0, 0.0, 0.0)
  {
  }

  /** By the product rule, the trial jet's value and slope are YTrial and
      DYTrial whenever the network jet has value n and slope nx. */
  lemma TrialJetValues(A: real, b: real, x: real, nj: Jet, c: Contribution)
    requires HasValues(nj, c)
    ensures D(TrialJet(A, b, x, nj), 0, 0) == YTrial(A, b, x, c.n)
    ensures D(TrialJet(A, b, x, nj), 1, 0) == DYTrial(A, b, x, c.n, c.nx)
  {
    OffsetJet(b, x);
  }

  // The trial jet's parameter derivatives are TrialSensitivity's fields
  // whenever the network jet carries the partials q, one field at a time.

  lemma TrialJetDp(A: real, b: real, x: real, nj: Jet, q: Partials)
    requires Carries(nj, q)
    ensures TrialSensitivity(b, x, q).dp == D(TrialJet(A, b, x, nj), 0, 1)
  {
    OffsetJet(b, x);
  }

  lemma TrialJetDpp(A: real, b: real, x: real, nj: Jet, q: Partials)
    requires Carries(nj, q)
    ensures TrialSensitivity(b, x, q).dpp == D(TrialJet(A, b, x, nj), 0, 2)
  {
    OffsetJet(b, x);
  }

  lemma TrialJetDpx(A: real, b: real, x: real, nj: Jet, q: Partials)
    requires Carries(nj, q)
    ensures TrialSensitivity(b, x, q).dpx == D(TrialJet(A, b, x, nj), 1, 1)
  {
    OffsetJet(b, x);
  }

  lemma TrialJetDppx(A: real, b: real, x: real, nj: Jet, q: Partials)
    requires Carries(nj, q)
    ensures TrialSensitivity(b, x, q).dppx == D(TrialJet(A, b, x, nj), 1, 2)
  {
    OffsetJet(b, x);
  }

  lemma TrialJetPartials(A: real, b: real, x: real, nj: Jet, q: Partials)
    requires Carries(nj, q)
    ensures TrialSensitivity(b, x, q)
         == TrialPartials(D(TrialJet(A, b, x, nj), 0, 1), D(TrialJet(A, b, x, nj), 0, 2),
                          D(TrialJet(A, b, x, nj), 1, 1), D(TrialJet(A, b, x, nj), 1, 2))
  {
    TrialJetDp(A, b, x, nj, q);
    TrialJetDpp(A, b, x, nj, q);
    TrialJetDpx(A, b, x, nj, q);
    TrialJetDppx(A, b, x, nj, q);
  }

  /** Both together: the hand-written trial value, slope and sensitivities
      are the derivatives of the trial jet. */
  lemma TrialJetDerivatives(A: real, b: real, x: real, nj: Jet, c: Contribution, q: Partials)
    requires HasValues(nj, c) && Carries(nj, q)
    ensures D(TrialJet(A, b, x, nj), 0, 0) == YTrial(A, b, x, c.n)
    ensures D(TrialJet(A, b, x, nj), 1, 0) == DYTrial(A, b, x, c.n, c.nx)
    ensures TrialSensitivity(b, x, q)
         == TrialPartials(D(TrialJet(A, b, x, nj), 0, 1), D(TrialJet(A, b, x, nj), 0, 2),
                          D(TrialJet(A, b, x, nj), 1, 1), D(TrialJet(A, b, x, nj), 1, 2))
  {
    TrialJetValues(A, b, x, nj, c);
    TrialJetPartials(A, b, x, nj, q);
  }

  /** The residual dyt/dx - F(x, yt) at x as a series in the parameter, from
      the trial jet `tj`: F is composed along its y argument only, whose
      third and fourth derivatives cannot contribute at second order. */
  function ResidualJet(prob: Problem, x: real, tj: Jet): Jet
  {
    var yt := D(tj, 0, 0);
    Add(SeriesP(D(tj, 1, 0), D(tj, 1, 1), D(tj, 1, 2)),
        Scale(-1.0, Compose(prob.F(x, yt), prob.dF_dy(x, yt), prob.d2F_dy2(x, yt), 0.0, 0.0,
                            SeriesP(yt, D(tj, 0, 1), D(tj, 0, 2)))))
  }

  /** The chained residual sensitivities of PointResidual are the parameter
      derivatives of the residual series built from the network output's
      jet. */
  lemma PointResidualSeries(prob: Problem, x: real, nj: Jet, c: Contribution, q: Partials)
    requires HasValues(nj, c) && Carries(nj, q)
    ensures PointResidual(prob, x, c.n, c.nx, q)
         == Residual(D(ResidualJet(prob, x, TrialJet(prob.A, prob.b, x, nj)), 0, 0),
                     D(ResidualJet(prob, x, TrialJet(prob.A, prob.b, x, nj)), 0, 1),
                     D(ResidualJet(prob, x, TrialJet(prob.A, prob.b, x, nj)), 0, 2))
  {
    var tj := TrialJet(prob.A, prob.b, x, nj);
    TrialJetDerivatives(prob.A, prob.b, x, nj, c, q);
    var yt := D(tj, 0, 0);
    ComposeSeriesP(prob.F(x, yt), prob.dF_dy(x, yt), prob.d2F_dy2(x, yt), 0.0, 0.0, yt, D(tj, 0, 1), D(tj, 0, 2));
  }

  /** Along parameter k of family `fam`, the residual at x and the
      sensitivities PointResidual chains by hand are the value and the first
      two parameter derivatives of the residual built from the network's
      jet by the jet operations alone. */
  lemma ResidualDerivatives(act: Sigmoid, prob: Problem, p: Params, fam: Family, k: nat, x: real)
    requires p.Valid() && k < |p.v|
    ensures PointResidual(prob, x, N(act, p, x), Nx(act, p, x), UnitPartials(act, p, fam, k, x))
         == Residual(D(ResidualJet(prob, x, TrialJet(prob.A, prob.b, x, NetJet(act, p, fam, k, x))), 0, 0),
                     D(ResidualJet(prob, x, TrialJet(prob.A, prob.b, x, NetJet(act, p, fam, k, x))), 0, 1),
                     D(ResidualJet(prob, x, TrialJet(prob.A, prob.b, x, NetJet(act, p, fam, k, x))), 0, 2))
  {
    NetJetDerivatives(act, p, fam, k, x);
    PointResidualSeries(prob, x, NetJet(act, p, fam, k, x), Contribution(N(act, p, x), Nx(act, p, x), Nxx(act, p, x)),
                        UnitPartials(act, p, fam, k, x));
  }

  /** The residual series at every training point along parameter k of
      family `fam`, built from the network's jet. */
  function ResidualJets(act: Sigmoid, prob: Problem, xs: seq<real>, p: Params, fam: Family, k: nat): (js: seq<Jet>)
    requires p.Valid() && k < |p.v|
    ensures |js| == |xs|
  {
    seq(|xs|, i requires 0 <= i < |xs| => ResidualJet(prob, xs[i], TrialJet(prob.A, prob.b, xs[i], NetJet(act, p, fam, k, xs[i]))))
  }

  /** E and the accumulated dE and d2E along parameter k of family `fam` are
      the value and the first two parameter derivatives of the sum of the
      squared residual series. */
  lemma ErrorDerivatives(act: Sigmoid, prob: Problem, xs: seq<real>, p: Params, fam: Family, k: nat)
    requires p.Valid() && k < |p.v|
    ensures D(JetSum(Squared(ResidualJets(act, prob, xs, p, fam, k))), 0, 0) == Error(Residuals(act, prob, xs, p))
    ensures D(JetSum(Squared(ResidualJets(act, prob, xs, p, fam, k))), 0, 1) == FamilyGradient(act, prob, xs, p, fam)[k]
    ensures D(JetSum(Squared(ResidualJets(act, prob, xs, p, fam, k))), 0, 2) == FamilyCurvature(act, prob, xs, p, fam)[k]
  {
    var rs := PointResiduals(act, prob, xs, p, fam, k);
    var js := ResidualJets(act, prob, xs, p, fam, k);
    forall i | 0 <= i < |xs|
      ensures rs[i] == Residual(D(js[i], 0, 0), D(js[i], 0, 1), D(js[i], 0, 2))
    {
      ResidualDerivatives(act, prob, p, fam, k, xs[i]);
    }
    SquaredJets(js, rs);
  }
}
