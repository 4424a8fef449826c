/** The PDE solver (nnpde2bvp.py): a two-variable, second-order equation
    G(x, Y, grad Y, (Yxx, Yyy)) = 0 on the unit square with Dirichlet data,
    solved by the trial solution Yt = A + P*N, where A carries the boundary
    data (Boundary.Anchor), P vanishes on the boundary (Boundary.Envelope)
    and N is the two-input network (Network2). Training minimises
    E = sum of G^2 over the training points by plain gradient descent on v,
    u and both rows of input weights, every update computed from one
    snapshot. */
module Pde2Bvp {
  import opened Algebra
  import opened Sums
  import opened Jets
  import opened Activation
  import opened Errors
  import opened Sensitivity
  import opened UnitJets
  import opened Network2
  import opened Boundary

  /** The equation and its partial derivatives with respect to Y, to each
      component of grad Y and to each unmixed second derivative, every one
      a function of (point, Y, grad Y, (Yxx, Yyy)). */
  datatype Equation = Equation(
    G: (Pair, real, Pair, Pair) -> real,
    dG_dY: (Pair, real, Pair, Pair) -> real,
    dG_ddelY: (Axis, Pair, real, Pair, Pair) -> real,
    dG_ddel2Y: (Axis, Pair, real, Pair, Pair) -> real)

  /** The trial solution at one point: its value, its gradient and its two
      unmixed second derivatives. */
  datatype TrialPoint = TrialPoint(yt: real, del: Pair, del2: Pair)

  /** d(Yt)/d(axis j) = dA + P*dN + dP*N. */
  function TrialSlope(pt: Pair, bc: Edges, j: Axis, n: real, nx: real): real
  {
    AnchorD(pt, bc, j) + Envelope(pt) * nx + EnvelopeD(pt, j) * n
  }

  /** d2(Yt)/d(axis j)^2 = d2A + P*d2N + 2*dP*dN + d2P*N. */
  function TrialBend(pt: Pair, bc: Edges, j: Axis, n: real, nx: real, nxx: real): real
  {
    AnchorDD(pt, bc, j) + Envelope(pt) * nxx + 2.0 * EnvelopeD(pt, j) * nx + EnvelopeDD(pt, j) * n
  }

  /** The trial solution and its derivatives at pt for the snapshot p. On
      the boundary its value is the anchor's, whatever the network. */
  function Trial(act: Sigmoid, p: Params, bc: Edges, pt: Pair): (t: TrialPoint)
    requires p.Valid()
    ensures pt.x == 0.0 || pt.x == 1.0 || pt.y == 0.0 || pt.y == 1.0 ==> t.yt == Anchor(pt, bc)
  {
    var n := N(act, p, pt);
    TrialPoint(TrialValue(pt, n, bc),
               Pair(TrialSlope(pt, bc, AxisX, n, Nx(act, p, pt, AxisX)), TrialSlope(pt, bc, AxisY, n, Nx(act, p, pt, AxisY))),
               Pair(TrialBend(pt, bc, AxisX, n, Nx(act, p, pt, AxisX), Nxx(act, p, pt, AxisX)),
                    TrialBend(pt, bc, AxisY, n, Nx(act, p, pt, AxisY), Nxx(act, p, pt, AxisY))))
  }

  /** The first derivatives along one parameter of a quantity and of its
      first and second derivatives along one axis. */
  datatype Rates = Rates(dp: real, dpx: real, dpxx: real)

  /** The first-order part of a unit's partials. */
  function RatesOf(q: Partials): Rates
  {
    Rates(q.dp, q.dpx, q.dpxx)
  }

  /** Rates of a parameter that moves c times as fast. */
  function ScaleRates(c: real, r: Rates): Rates
  {
    Rates(c * r.dp, c * r.dpx, c * r.dpxx)
  }

  /** Whether the first parameter derivatives of jet `j` are those in `r`. */
  predicate HasRates(j: Jet, r: Rates)
  {
    D(j, 0, 1) == r.dp && D(j, 1, 1) == r.dpx && D(j, 2, 1) == r.dpxx
  }

  /** The parameters of one hidden unit: the output weight, the bias and
      the input weight along an axis. */
  datatype Param = Out | Bias | In(j: Axis)

  /** The network's rates along axis i when parameter `par` of unit k
      moves. Along its own axis an input weight has the one-input weight
      partials. Along the other axis it reaches the unit only through the
      net input, at the rate of its coordinate, so its partials there are
      that coordinate times the bias partials (SliceMoveWeight). */
  function NetRates(act: Sigmoid, p: Params, par: Param, k: nat, pt: Pair, i: Axis): Rates
    requires p.Valid() && k < |p.v|
  {
    match par
    case Out => RatesOf(UnitPartials(act, p, V, k, pt, i))
    case Bias => RatesOf(UnitPartials(act, p, U, k, pt, i))
    case In(j) =>
      if j == i then RatesOf(UnitPartials(act, p, W, k, pt, i))
      else ScaleRates(pt.At(j), RatesOf(UnitPartials(act, p, U, k, pt, i)))
  }

  /** The network as a jet along axis i and parameter `par` of unit k. */
  function ParamJet(act: Sigmoid, p: Params, par: Param, k: nat, pt: Pair, i: Axis): Jet
    requires p.Valid() && k < |p.v|
  {
    match par
    case Out => AxisJet(act, p, V, k, pt, i)
    case Bias => AxisJet(act, p, U, k, pt, i)
    case In(j) => if j == i then AxisJet(act, p, W, k, pt, i) else CrossJet(act, p, k, pt, i)
  }

  /** The two axes are the only ones: an axis other than i is Other(i). */
  lemma OtherAxis(i: Axis, j: Axis)
    requires j != i
    ensures j == Other(i)
  {
  }

  /** A jet carrying a unit's partials has their first-order part as rates. */
  lemma CarriesRates(j: Jet, q: Partials)
    requires Carries(j, q)
    ensures HasRates(j, RatesOf(q))
  {
  }

  /** A jet carrying c times a unit's partials has the scaled rates. */
  lemma ScaledRates(j: Jet, c: real, q: Partials)
    requires CarriesScaled(j, c, q)
    ensures HasRates(j, ScaleRates(c, RatesOf(q)))
  {
  }

  /** Along a family of the one-input formulas: the axis jet's rates. */
  lemma FamilyJetRates(act: Sigmoid, p: Params, fam: Family, k: nat, pt: Pair, i: Axis)
    requires p.Valid() && k < |p.v|
    ensures HasValues(AxisJet(act, p, fam, k, pt, i), Contribution(N(act, p, pt), Nx(act, p, pt, i), Nxx(act, p, pt, i)))
    ensures HasRates(AxisJet(act, p, fam, k, pt, i), RatesOf(UnitPartials(act, p, fam, k, pt, i)))
  {
    AxisJetDerivatives(act, p, fam, k, pt, i);
    CarriesRates(AxisJet(act, p, fam, k, pt, i), UnitPartials(act, p, fam, k, pt, i));
  }

  /** Along the input weight of the other axis: the cross jet's rates. */
  lemma CrossJetRates(act: Sigmoid, p: Params, k: nat, pt: Pair, i: Axis)
    requires p.Valid() && k < |p.v|
    ensures HasValues(CrossJet(act, p, k, pt, i), Contribution(N(act, p, pt), Nx(act, p, pt, i), Nxx(act, p, pt, i)))
    ensures HasRates(CrossJet(act, p, k, pt, i), ScaleRates(pt.At(Other(i)), RatesOf(UnitPartials(act, p, U, k, pt, i))))
  {
    CrossJetDerivatives(act, p, k, pt, i);
    ScaledRates(CrossJet(act, p, k, pt, i), pt.At(Other(i)), UnitPartials(act, p, U, k, pt, i));
  }

  /** The network's rates agree with the derivatives of its jet, for every
      parameter and along either axis, and the jet has N, Nx and Nxx. */
  lemma ParamJetDerivatives(act: Sigmoid, p: Params, par: Param, k: nat, pt: Pair, i: Axis)
    requires p.Valid() && k < |p.v|
    ensures HasValues(ParamJet(act, p, par, k, pt, i), Contribution(N(act, p, pt), Nx(act, p, pt, i), Nxx(act, p, pt, i)))
    ensures HasRates(ParamJet(act, p, par, k, pt, i), NetRates(act, p, par, k, pt, i))
  {
    match par
    case Out => FamilyJetRates(act, p, V, k, pt, i);
    case Bias => FamilyJetRates(act, p, U, k, pt, i);
    case In(j) =>
      if j == i {
        FamilyJetRates(act, p, W, k, pt, i);
      } else {
        OtherAxis(i, j);
        CrossJetRates(act, p, k, pt, i);
      }
  }

  /** The rates of P*N when only N depends on the parameter and P, dP,
      d2P are e0, e1, e2: the product rule. Where P vanishes the value does
      not move. */
  function ProductRates(e0: real, e1: real, e2: real, r: Rates): (s: Rates)
    ensures e0 == 0.0 ==> s.dp == 0.0
  {
    Rates(e0 * r.dp, e0 * r.dpx + e1 * r.dp, e0 * r.dpxx + 2.0 * e1 * r.dpx + e2 * r.dp)
  }

  /** The trial solution's rates along axis i given the network's. */
  function TrialRates(pt: Pair, i: Axis, r: Rates): (s: Rates)
    ensures pt.x == 0.0 || pt.x == 1.0 || pt.y == 0.0 || pt.y == 1.0 ==> s.dp == 0.0
  {
    ProductRates(Envelope(pt), EnvelopeD(pt, i), EnvelopeDD(pt, i), r)
  }

  /** A + P*N as a jet, from the series of A and P along one axis and the
      network's jet. */
  function ProductJet(a0: real, a1: real, a2: real, e0: real, e1: real, e2: real, nj: Jet): Jet
  {
    Add(SeriesX(a0, a1, a2), Mul(SeriesX(e0, e1, e2), nj))
  }

  /** The value and x-derivatives of A + P*N by the product rule. */
  lemma ProductJetValues(a0: real, a1: real, a2: real, e0: real, e1: real, e2: real, nj: Jet,
                         n0: real, n1: real, n2: real)
    requires HasValues(nj, Contribution(n0, n1, n2))
    ensures D(ProductJet(a0, a1, a2, e0, e1, e2, nj), 0, 0) == a0 + e0 * n0
    ensures D(ProductJet(a0, a1, a2, e0, e1, e2, nj), 1, 0) == a1 + e0 * n1 + e1 * n0
    ensures D(ProductJet(a0, a1, a2, e0, e1, e2, nj), 2, 0) == a2 + e0 * n2 + 2.0 * e1 * n1 + e2 * n0
  {
  }

  /** The parameter rates of A + P*N are those ProductRates lists. */
  lemma ProductJetRates(a0: real, a1: real, a2: real, e0: real, e1: real, e2: real, nj: Jet, r: Rates)
    requires HasRates(nj, r)
    ensures HasRates(ProductJet(a0, a1, a2, e0, e1, e2, nj), ProductRates(e0, e1, e2, r))
  {
  }

  /** The trial solution as a jet along axis i and parameter `par` of unit k. */
  function TrialJet(act: Sigmoid, p: Params, bc: Edges, par: Param, k: nat, pt: Pair, i: Axis): Jet
    requires p.Valid() && k < |p.v|
  {
    ProductJet(Anchor(pt, bc), AnchorD(pt, bc, i), AnchorDD(pt, bc, i),
               Envelope(pt), EnvelopeD(pt, i), EnvelopeDD(pt, i), ParamJet(act, p, par, k, pt, i))
  }

  /** The trial point's entries along axis i. */
  lemma TrialAlong(act: Sigmoid, p: Params, bc: Edges, pt: Pair, i: Axis)
    requires p.Valid()
    ensures Trial(act, p, bc, pt).yt == TrialValue(pt, N(act, p, pt), bc)
    ensures Trial(act, p, bc, pt).del.At(i) == TrialSlope(pt, bc, i, N(act, p, pt), Nx(act, p, pt, i))
    ensures Trial(act, p, bc, pt).del2.At(i) == TrialBend(pt, bc, i, N(act, p, pt), Nx(act, p, pt, i), Nxx(act, p, pt, i))
  {
  }

  /** A + P*N along axis i has the trial value, slope and bend of the
      network values n0, n1, n2 of `nj`. */
  lemma TrialJetValuesAt(bc: Edges, pt: Pair, i: Axis, nj: Jet, n0: real, n1: real, n2: real)
    requires HasValues(nj, Contribution(n0, n1, n2))
    ensures D(ProductJet(Anchor(pt, bc), AnchorD(pt, bc, i), AnchorDD(pt, bc, i),
                         Envelope(pt), EnvelopeD(pt, i), EnvelopeDD(pt, i), nj), 0, 0) == TrialValue(pt, n0, bc)
    ensures D(ProductJet(Anchor(pt, bc), AnchorD(pt, bc, i), AnchorDD(pt, bc, i),
                         Envelope(pt), EnvelopeD(pt, i), EnvelopeDD(pt, i), nj), 1, 0) == TrialSlope(pt, bc, i, n0, n1)
    ensures D(ProductJet(Anchor(pt, bc), AnchorD(pt, bc, i), AnchorDD(pt, bc, i),
                         Envelope(pt), EnvelopeD(pt, i), EnvelopeDD(pt, i), nj), 2, 0) == TrialBend(pt, bc, i, n0, n1, n2)
  {
    ProductJetValues(Anchor(pt, bc), AnchorD(pt, bc, i), AnchorDD(pt, bc, i),
                     Envelope(pt), EnvelopeD(pt, i), EnvelopeDD(pt, i), nj, n0, n1, n2);
  }

  /** The trial jet's value and x-derivatives are the trial point's. */
  lemma TrialJetValues(act: Sigmoid, p: Params, bc: Edges, par: Param, k: nat, pt: Pair, i: Axis)
    requires p.Valid() && k < |p.v|
    ensures D(TrialJet(act, p, bc, par, k, pt, i), 0, 0) == Trial(act, p, bc, pt).yt
    ensures D(TrialJet(act, p, bc, par, k, pt, i), 1, 0) == Trial(act, p, bc, pt).del.At(i)
    ensures D(TrialJet(act, p, bc, par, k, pt, i), 2, 0) == Trial(act, p, bc, pt).del2.At(i)
  {
    ParamJetDerivatives(act, p, par, k, pt, i);
    TrialJetValuesAt(bc, pt, i, ParamJet(act, p, par, k, pt, i), N(act, p, pt), Nx(act, p, pt, i), Nxx(act, p, pt, i));
    TrialAlong(act, p, bc, pt, i);
  }

  /** The trial jet's parameter rates are the trial rates. */
  lemma TrialJetRates(act: Sigmoid, p: Params, bc: Edges, par: Param, k: nat, pt: Pair, i: Axis)
    requires p.Valid() && k < |p.v|
    ensures HasRates(TrialJet(act, p, bc, par, k, pt, i), TrialRates(pt, i, NetRates(act, p, par, k, pt, i)))
  {
    ParamJetDerivatives(act, p, par, k, pt, i);
    ProductJetRates(Anchor(pt, bc), AnchorD(pt, bc, i), AnchorDD(pt, bc, i),
                    Envelope(pt), EnvelopeD(pt, i), EnvelopeDD(pt, i), ParamJet(act, p, par, k, pt, i),
                    NetRates(act, p, par, k, pt, i));
  }

  /** The trial solution's value and derivatives along axis i are those of
      its jet, and so are its rates along every parameter: the hand-expanded
      trial sensitivities are derivatives of Yt. */
  lemma TrialJetDerivatives(act: Sigmoid, p: Params, bc: Edges, par: Param, k: nat, pt: Pair, i: Axis)
    requires p.Valid() && k < |p.v|
    ensures D(TrialJet(act, p, bc, par, k, pt, i), 0, 0) == Trial(act, p, bc, pt).yt
    ensures D(TrialJet(act, p, bc, par, k, pt, i), 1, 0) == Trial(act, p, bc, pt).del.At(i)
    ensures D(TrialJet(act, p, bc, par, k, pt, i), 2, 0) == Trial(act, p, bc, pt).del2.At(i)
    ensures HasRates(TrialJet(act, p, bc, par, k, pt, i), TrialRates(pt, i, NetRates(act, p, par, k, pt, i)))
  {
    TrialJetValues(act, p, bc, par, k, pt, i);
    TrialJetRates(act, p, bc, par, k, pt, i);
  }

  /** The equation's partials along axis j at the trial point: the terms of
      dG that come through the trial solution's derivatives along j, given
      its rates `s` along that axis. */
  function AxisTerms(eq: Equation, pt: Pair, t: TrialPoint, j: Axis, s: Rates): real
  {
    eq.dG_ddelY(j, pt, t.yt, t.del, t.del2) * s.dpx + eq.dG_ddel2Y(j, pt, t.yt, t.del, t.del2) * s.dpxx
  }

  /** dG along one parameter by the chain rule through every argument of G:
      Y, both components of grad Y and both second derivatives, given the
      trial solution's rates along x (sx) and along y (sy). */
  function GradG(eq: Equation, pt: Pair, t: TrialPoint, sx: Rates, sy: Rates): real
  {
    eq.dG_dY(pt, t.yt, t.del, t.del2) * sx.dp + AxisTerms(eq, pt, t, AxisX, sx) + AxisTerms(eq, pt, t, AxisY, sy)
  }

  /** The trial solution's rates along axis i when parameter `par` of unit
      k moves. On the boundary the trial value does not move. */
  function PointRates(act: Sigmoid, p: Params, par: Param, k: nat, pt: Pair, i: Axis): (s: Rates)
    requires p.Valid() && k < |p.v|
    ensures pt.x == 0.0 || pt.x == 1.0 || pt.y == 0.0 || pt.y == 1.0 ==> s.dp == 0.0
  {
    TrialRates(pt, i, NetRates(act, p, par, k, pt, i))
  }

  /** dG at pt along parameter `par` of unit k, with every chain-rule term. */
  function PointGradient(eq: Equation, act: Sigmoid, p: Params, bc: Edges, par: Param, k: nat, pt: Pair): real
    requires p.Valid() && k < |p.v|
  {
    GradG(eq, pt, Trial(act, p, bc, pt), PointRates(act, p, par, k, pt, AxisX), PointRates(act, p, par, k, pt, AxisY))
  }

  /** The first parameter derivatives recorded in a jet. */
  function JetRates(j: Jet): Rates
  {
    Rates(D(j, 0, 1), D(j, 1, 1), D(j, 2, 1))
  }

  /** The bias partial dN/du of a unit is the same along either axis. */
  lemma BiasValueAgree(act: Sigmoid, p: Params, k: nat, pt: Pair)
    requires p.Valid() && k < |p.v|
    ensures UnitPartials(act, p, U, k, pt, AxisX).dp == UnitPartials(act, p, U, k, pt, AxisY).dp
  {
    BiasValueOther(act, p, k, pt, AxisX);
  }

  /** So the bias partial along axis j equals the one along the other axis. */
  lemma BiasValueOther(act: Sigmoid, p: Params, k: nat, pt: Pair, j: Axis)
    requires p.Valid() && k < |p.v|
    ensures UnitPartials(act, p, U, k, pt, j).dp == UnitPartials(act, p, U, k, pt, Other(j)).dp
  {
    var z := Z(p, k, pt);
    BiasValue(act.s0(z), act.s1(z), act.s2(z), act.s3(z), act.s4(z), p.v[k], p.W(j, k), pt.At(j));
    BiasValue(act.s0(z), act.s1(z), act.s2(z), act.s3(z), act.s4(z), p.v[k], p.W(Other(j), k), pt.At(Other(j)));
  }

  /** dN/dv is the unit's activation along either axis. */
  lemma OutValueAgree(act: Sigmoid, p: Params, k: nat, pt: Pair)
    requires p.Valid() && k < |p.v|
    ensures UnitPartials(act, p, V, k, pt, AxisX).dp == UnitPartials(act, p, V, k, pt, AxisY).dp
  {
    var z := Z(p, k, pt);
    FamilyCases(act.s0(z), act.s1(z), act.s2(z), act.s3(z), act.s4(z), p.v[k], p.wx[k], pt.x);
    FamilyCases(act.s0(z), act.s1(z), act.s2(z), act.s3(z), act.s4(z), p.v[k], p.wy[k], pt.y);
  }

  /** The value rate of a unit's partials, plain and scaled. */
  lemma RatesValue(c: real, q: Partials)
    ensures RatesOf(q).dp == q.dp && ScaleRates(c, RatesOf(q)).dp == c * q.dp
  {
  }

  /** The network's value rates along an input weight, by axis. */
  lemma WeightRates(act: Sigmoid, p: Params, j: Axis, k: nat, pt: Pair)
    requires p.Valid() && k < |p.v|
    ensures NetRates(act, p, In(j), k, pt, j).dp == UnitPartials(act, p, W, k, pt, j).dp
    ensures NetRates(act, p, In(j), k, pt, Other(j)).dp == pt.At(j) * UnitPartials(act, p, U, k, pt, Other(j)).dp
  {
    assert NetRates(act, p, In(j), k, pt, j) == RatesOf(UnitPartials(act, p, W, k, pt, j));
    RatesValue(pt.At(j), UnitPartials(act, p, W, k, pt, j));
    CrossWeightRate(act, p, j, k, pt);
  }

  /** Along the other axis, an input weight's value rate is its coordinate
      times the bias rate. */
  lemma CrossWeightRate(act: Sigmoid, p: Params, j: Axis, k: nat, pt: Pair)
    requires p.Valid() && k < |p.v|
    ensures NetRates(act, p, In(j), k, pt, Other(j)).dp == pt.At(j) * UnitPartials(act, p, U, k, pt, Other(j)).dp
  {
    var q := UnitPartials(act, p, U, k, pt, Other(j));
    assert Other(j) != j;
    assert NetRates(act, p, In(j), k, pt, Other(j)) == ScaleRates(pt.At(j), RatesOf(q));
    RatesValue(pt.At(j), q);
  }

  /** Two value rates agree when one is x times a bias rate and the other
      is x times an equal bias rate. */
  lemma ScaledValueAgree(n1: real, n2: real, a: real, b: real, c: real, x: real)
    requires n1 == a && a == x * b && b == c && n2 == x * c
    ensures n1 == n2
  {
  }

  /** The value part of the chain rule along an input weight: dN/dw_j is
      the coordinate times dN/du. */
  lemma WeightValueChain(act: Sigmoid, p: Params, k: nat, pt: Pair, j: Axis)
    requires p.Valid() && k < |p.v|
    ensures UnitPartials(act, p, W, k, pt, j).dp == pt.At(j) * UnitPartials(act, p, U, k, pt, j).dp
  {
    WeightChainRule(act, p, k, pt, j);
  }

  /** Along its own axis an input weight's value partial is its coordinate
      times the bias partial, and along the other axis the network's rates
      scale the bias partial by the same coordinate. */
  lemma WeightValueAgree(act: Sigmoid, p: Params, j: Axis, k: nat, pt: Pair)
    requires p.Valid() && k < |p.v|
    ensures NetRates(act, p, In(j), k, pt, j).dp == NetRates(act, p, In(j), k, pt, Other(j)).dp
  {
    BiasValueOther(act, p, k, pt, j);
    WeightValueChain(act, p, k, pt, j);
    WeightRates(act, p, j, k, pt);
    ScaledValueAgree(NetRates(act, p, In(j), k, pt, j).dp, NetRates(act, p, In(j), k, pt, Other(j)).dp,
                     UnitPartials(act, p, W, k, pt, j).dp, UnitPartials(act, p, U, k, pt, j).dp,
                     UnitPartials(act, p, U, k, pt, Other(j)).dp, pt.At(j));
  }

  /** dN/dp is the same along either axis, for every parameter. */
  lemma NetRatesValueAgree(act: Sigmoid, p: Params, par: Param, k: nat, pt: Pair)
    requires p.Valid() && k < |p.v|
    ensures NetRates(act, p, par, k, pt, AxisX).dp == NetRates(act, p, par, k, pt, AxisY).dp
  {
    match par
    case Out => OutValueAgree(act, p, k, pt);
    case Bias => BiasValueAgree(act, p, k, pt);
    case In(j) => WeightValueAgree(act, p, j, k, pt);
  }

  /** The value rate of P*N is P times the network's. */
  lemma ProductRatesValue(e0: real, e1: real, e2: real, r: Rates)
    ensures ProductRates(e0, e1, e2, r).dp == e0 * r.dp
  {
  }

  /** So the trial solution's value rate is P times the network's. */
  lemma TrialRatesValue(pt: Pair, i: Axis, r: Rates)
    ensures TrialRates(pt, i, r).dp == Envelope(pt) * r.dp
  {
    ProductRatesValue(Envelope(pt), EnvelopeD(pt, i), EnvelopeDD(pt, i), r);
  }

  /** Network rates that agree in value give trial rates that agree in value. */
  lemma TrialValueAgree(pt: Pair, rx: Rates, ry: Rates)
    requires rx.dp == ry.dp
    ensures TrialRates(pt, AxisX, rx).dp == TrialRates(pt, AxisY, ry).dp
  {
    TrialRatesValue(pt, AxisX, rx);
    TrialRatesValue(pt, AxisY, ry);
  }

  /** So dYt/dp is the same whichever axis the rates were built along. */
  lemma PointRatesValueAgree(act: Sigmoid, p: Params, par: Param, k: nat, pt: Pair)
    requires p.Valid() && k < |p.v|
    ensures PointRates(act, p, par, k, pt, AxisX).dp == PointRates(act, p, par, k, pt, AxisY).dp
  {
    NetRatesValueAgree(act, p, par, k, pt);
    TrialValueAgree(pt, NetRates(act, p, par, k, pt, AxisX), NetRates(act, p, par, k, pt, AxisY));
  }

  /** The rates fed to the chain rule are the parameter derivatives of the
      trial solution's jets along x and along y: the gradient of G is built
      from true derivatives of Yt, dYt/dx_j and d2Yt/dx_j^2. */
  lemma PointGradientChain(eq: Equation, act: Sigmoid, p: Params, bc: Edges, par: Param, k: nat, pt: Pair)
    requires p.Valid() && k < |p.v|
    ensures PointGradient(eq, act, p, bc, par, k, pt)
         == GradG(eq, pt, Trial(act, p, bc, pt),
                  JetRates(TrialJet(act, p, bc, par, k, pt, AxisX)), JetRates(TrialJet(act, p, bc, par, k, pt, AxisY)))
  {
    TrialJetRates(act, p, bc, par, k, pt, AxisX);
    TrialJetRates(act, p, bc, par, k, pt, AxisY);
  }

  /** dG along a parameter of v or u as nnpde2bvp.py accumulates it
      (nnpde2bvp.py:403-408): the second-derivative terms sit on a
      continuation line that Python evaluates as a separate expression and
      discards, so only dG/dY and the gradient terms remain. */
  function GradGDropped(eq: Equation, pt: Pair, t: TrialPoint, sx: Rates, sy: Rates): real
  {
    eq.dG_dY(pt, t.yt, t.del, t.del2) * sx.dp
      + eq.dG_ddelY(AxisX, pt, t.yt, t.del, t.del2) * sx.dpx + eq.dG_ddelY(AxisY, pt, t.yt, t.del, t.del2) * sy.dpx
  }

  /** dG along the input weight of axis j as nnpde2bvp.py accumulates it
      (nnpde2bvp.py:409-413): only the terms along axis j, although the
      weight also moves the derivatives along the other axis. */
  function GradGOwnAxis(eq: Equation, pt: Pair, t: TrialPoint, j: Axis, sj: Rates): real
  {
    eq.dG_dY(pt, t.yt, t.del, t.del2) * sj.dp + AxisTerms(eq, pt, t, j, sj)
  }

  /** The second-derivative terms of both axes. */
  function BendTerms(eq: Equation, pt: Pair, t: TrialPoint, sx: Rates, sy: Rates): real
  {
    eq.dG_ddel2Y(AxisX, pt, t.yt, t.del, t.del2) * sx.dpxx + eq.dG_ddel2Y(AxisY, pt, t.yt, t.del, t.del2) * sy.dpxx
  }

  /** The dropped continuation line loses exactly the second-derivative
      term of each axis. */
  lemma DroppedGap(eq: Equation, pt: Pair, t: TrialPoint, sx: Rates, sy: Rates)
    ensures GradG(eq, pt, t, sx, sy) - GradGDropped(eq, pt, t, sx, sy) == BendTerms(eq, pt, t, sx, sy)
  {
  }

  /** Keeping one axis loses exactly the other axis's terms, as long as the
      two axes agree on dYt/dp. */
  lemma OwnAxisGap(eq: Equation, pt: Pair, t: TrialPoint, j: Axis, sx: Rates, sy: Rates)
    requires sx.dp == sy.dp
    ensures j == AxisX ==> GradG(eq, pt, t, sx, sy) - GradGOwnAxis(eq, pt, t, j, sx) == AxisTerms(eq, pt, t, AxisY, sy)
    ensures j == AxisY ==> GradG(eq, pt, t, sx, sy) - GradGOwnAxis(eq, pt, t, j, sy) == AxisTerms(eq, pt, t, AxisX, sx)
  {
  }

  /** dG at pt along parameter `par` of unit k as nnpde2bvp.py accumulates it. */
  function PointGradientAsWritten(eq: Equation, act: Sigmoid, p: Params, bc: Edges, par: Param, k: nat, pt: Pair): real
    requires p.Valid() && k < |p.v|
  {
    var t := Trial(act, p, bc, pt);
    match par
    case Out => GradGDropped(eq, pt, t, PointRates(act, p, par, k, pt, AxisX), PointRates(act, p, par, k, pt, AxisY))
    case Bias => GradGDropped(eq, pt, t, PointRates(act, p, par, k, pt, AxisX), PointRates(act, p, par, k, pt, AxisY))
    case In(j) => GradGOwnAxis(eq, pt, t, j, PointRates(act, p, par, k, pt, j))
  }

  /** The accumulation in nnpde2bvp.py along v or u is the dropped form. */
  lemma AsWrittenUnit(eq: Equation, act: Sigmoid, p: Params, bc: Edges, par: Param, k: nat, pt: Pair)
    requires p.Valid() && k < |p.v| && !par.In?
    ensures PointGradientAsWritten(eq, act, p, bc, par, k, pt)
         == GradGDropped(eq, pt, Trial(act, p, bc, pt), PointRates(act, p, par, k, pt, AxisX), PointRates(act, p, par, k, pt, AxisY))
  {
    match par
    case Out =>
    case Bias =>
  }

  /** The accumulation in nnpde2bvp.py along an input weight is the own-axis form. */
  lemma AsWrittenWeight(eq: Equation, act: Sigmoid, p: Params, bc: Edges, j: Axis, k: nat, pt: Pair)
    requires p.Valid() && k < |p.v|
    ensures PointGradientAsWritten(eq, act, p, bc, In(j), k, pt)
         == GradGOwnAxis(eq, pt, Trial(act, p, bc, pt), j, PointRates(act, p, In(j), k, pt, j))
  {
  }

  /** What the accumulation in nnpde2bvp.py leaves out along v or u: the
      second-derivative term of each axis. */
  lemma DroppedBendGap(eq: Equation, act: Sigmoid, p: Params, bc: Edges, par: Param, k: nat, pt: Pair)
    requires p.Valid() && k < |p.v| && !par.In?
    ensures PointGradient(eq, act, p, bc, par, k, pt) - PointGradientAsWritten(eq, act, p, bc, par, k, pt)
         == BendTerms(eq, pt, Trial(act, p, bc, pt), PointRates(act, p, par, k, pt, AxisX), PointRates(act, p, par, k, pt, AxisY))
  {
    AsWrittenUnit(eq, act, p, bc, par, k, pt);
    DroppedGap(eq, pt, Trial(act, p, bc, pt), PointRates(act, p, par, k, pt, AxisX), PointRates(act, p, par, k, pt, AxisY));
  }

  /** What the accumulation in nnpde2bvp.py leaves out along the input weight of
      axis j: every term along the other axis. */
  lemma CrossAxisGap(eq: Equation, act: Sigmoid, p: Params, bc: Edges, j: Axis, k: nat, pt: Pair)
    requires p.Valid() && k < |p.v|
    ensures PointGradient(eq, act, p, bc, In(j), k, pt) - PointGradientAsWritten(eq, act, p, bc, In(j), k, pt)
      == AxisTerms(eq, pt, Trial(act, p, bc, pt), Other(j), PointRates(act, p, In(j), k, pt, Other(j)))
  {
    AsWrittenWeight(eq, act, p, bc, j, k, pt);
    PointRatesValueAgree(act, p, In(j), k, pt);
    OwnAxisGap(eq, pt, Trial(act, p, bc, pt), j, PointRates(act, p, In(j), k, pt, AxisX), PointRates(act, p, In(j), k, pt, AxisY));
  }

  /** Laplace's equation Yxx + Yyy = 0 with its partials: G depends on
      the second derivatives only, each with coefficient one. */
  function Laplace(): Equation
  {
    Equation((pt: Pair, y: real, d: Pair, d2: Pair) => d2.x + d2.y,
             (pt: Pair, y: real, d: Pair, d2: Pair) => 0.0,
             (j: Axis, pt: Pair, y: real, d: Pair, d2: Pair) => 0.0,
             (j: Axis, pt: Pair, y: real, d: Pair, d2: Pair) => 1.0)
  }

  /** For Laplace's equation the full chain rule keeps the second
      derivative rates only, the dropped form keeps nothing, and the
      own-axis form keeps that axis's second derivative rate. */
  lemma LaplaceGradG(pt: Pair, t: TrialPoint, sx: Rates, sy: Rates)
    ensures GradG(Laplace(), pt, t, sx, sy) == sx.dpxx + sy.dpxx
    ensures GradGDropped(Laplace(), pt, t, sx, sy) == 0.0
    ensures GradGOwnAxis(Laplace(), pt, t, AxisX, sx) == sx.dpxx
  {
  }

  /** For Laplace's equation, G is linear in Yt's second derivatives, so
      its parameter derivative is exactly the parameter derivative of
      Yxx + Yyy; the full chain rule gives that value for every network,
      every parameter and every point. */
  lemma LaplaceGradientExact(act: Sigmoid, p: Params, bc: Edges, par: Param, k: nat, pt: Pair)
    requires p.Valid() && k < |p.v|
    ensures PointGradient(Laplace(), act, p, bc, par, k, pt)
         == D(TrialJet(act, p, bc, par, k, pt, AxisX), 2, 1) + D(TrialJet(act, p, bc, par, k, pt, AxisY), 2, 1)
  {
    var jx := TrialJet(act, p, bc, par, k, pt, AxisX);
    var jy := TrialJet(act, p, bc, par, k, pt, AxisY);
    PointGradientChain(Laplace(), act, p, bc, par, k, pt);
    LaplaceGradG(pt, Trial(act, p, bc, pt), JetRates(jx), JetRates(jy));
  }

  /** An activation that is the identity: s = z, s' = 1, higher derivatives 0. */
  function LinearActivation(): Sigmoid
  {
    Sigmoid(z => z, z => 1.0, z => 0.0, z => 0.0, z => 0.0)
  }

  /** One hidden unit with v = 1, u = 1 and zero input weights. */
  function OneUnit(): (p: Params)
    ensures p.Valid()
  {
    Params([1.0], [1.0], [0.0], [0.0])
  }

  /** A point strictly inside the unit square. */
  predicate Interior(pt: Pair)
  {
    0.0 < pt.x < 1.0 && 0.0 < pt.y < 1.0
  }

  /** Inside the square the envelope bends down along both axes. */
  lemma InteriorBend(pt: Pair)
    requires Interior(pt)
    ensures EnvelopeDxx(pt) < 0.0 && EnvelopeDyy(pt) < 0.0
  {
    BumpPositive(pt.x);
    BumpPositive(pt.y);
  }

  /** The unit's net input is 1 everywhere. */
  lemma LinearInput(pt: Pair)
    ensures Z(OneUnit(), 0, pt) == 1.0
  {
  }

  /** dN/dv = dN/du = 1 everywhere, and their x-derivatives vanish. */
  lemma LinearRatesUnit(pt: Pair, i: Axis)
    ensures NetRates(LinearActivation(), OneUnit(), Out, 0, pt, i) == Rates(1.0, 0.0, 0.0)
    ensures NetRates(LinearActivation(), OneUnit(), Bias, 0, pt, i) == Rates(1.0, 0.0, 0.0)
  {
    LinearInput(pt);
  }

  /** Along y the x input weight moves N at x times dN/du. */
  lemma LinearRatesCross(pt: Pair)
    ensures NetRates(LinearActivation(), OneUnit(), In(AxisX), 0, pt, AxisY) == Rates(pt.x, 0.0, 0.0)
  {
    LinearRatesUnit(pt, AxisY);
  }

  /** With network rates (1, 0, 0) the trial solution's bend rate is d2P. */
  lemma UnitTrialBend(pt: Pair, i: Axis)
    ensures TrialRates(pt, i, Rates(1.0, 0.0, 0.0)).dpxx == EnvelopeDD(pt, i)
  {
  }

  /** With network rates (x, 0, 0) along y it is x * d2P/dy2. */
  lemma CrossTrialBend(pt: Pair)
    ensures TrialRates(pt, AxisY, Rates(pt.x, 0.0, 0.0)).dpxx == EnvelopeDyy(pt) * pt.x
  {
  }

  /** A negative times a positive number is negative. */
  lemma NegativeProduct(a: real, b: real)
    requires a < 0.0 && b > 0.0
    ensures a * b < 0.0
  {
    PositiveProduct(-a, b);
  }

  /** For Laplace's equation, along v or u: the full chain rule sums the
      second-derivative rates of both axes, the accumulation in nnpde2bvp.py
      gives zero. */
  lemma LaplaceUnitGradient(act: Sigmoid, p: Params, bc: Edges, par: Param, k: nat, pt: Pair)
    requires p.Valid() && k < |p.v| && !par.In?
    ensures PointGradient(Laplace(), act, p, bc, par, k, pt)
         == PointRates(act, p, par, k, pt, AxisX).dpxx + PointRates(act, p, par, k, pt, AxisY).dpxx
    ensures PointGradientAsWritten(Laplace(), act, p, bc, par, k, pt) == 0.0
  {
    AsWrittenUnit(Laplace(), act, p, bc, par, k, pt);
    LaplaceGradG(pt, Trial(act, p, bc, pt), PointRates(act, p, par, k, pt, AxisX), PointRates(act, p, par, k, pt, AxisY));
  }

  /** For Laplace's equation, along the x input weight: the full chain
      rule sums both axes' second-derivative rates, the
      accumulation in nnpde2bvp.py keeps the x one. */
  lemma LaplaceWeightGradient(act: Sigmoid, p: Params, bc: Edges, k: nat, pt: Pair)
    requires p.Valid() && k < |p.v|
    ensures PointGradient(Laplace(), act, p, bc, In(AxisX), k, pt)
         == PointRates(act, p, In(AxisX), k, pt, AxisX).dpxx + PointRates(act, p, In(AxisX), k, pt, AxisY).dpxx
    ensures PointGradientAsWritten(Laplace(), act, p, bc, In(AxisX), k, pt) == PointRates(act, p, In(AxisX), k, pt, AxisX).dpxx
  {
    AsWrittenWeight(Laplace(), act, p, bc, AxisX, k, pt);
    LaplaceGradG(pt, Trial(act, p, bc, pt), PointRates(act, p, In(AxisX), k, pt, AxisX), PointRates(act, p, In(AxisX), k, pt, AxisY));
  }

  /** Laplace's equation, the linear one-unit network, any boundary data
      and any point inside the square: along v and along u the full chain
      rule gives dG = d2P/dx2 + d2P/dy2, which is negative there (-1 at the
      centre), while the accumulation in nnpde2bvp.py gives 0. */
  lemma DroppedBendCounterexample(bc: Edges, par: Param, pt: Pair)
    requires !par.In? && Interior(pt)
    ensures PointGradient(Laplace(), LinearActivation(), OneUnit(), bc, par, 0, pt) == EnvelopeDxx(pt) + EnvelopeDyy(pt)
    ensures PointGradient(Laplace(), LinearActivation(), OneUnit(), bc, par, 0, pt) < 0.0
    ensures PointGradientAsWritten(Laplace(), LinearActivation(), OneUnit(), bc, par, 0, pt) == 0.0
  {
    LinearRatesUnit(pt, AxisX);
    LinearRatesUnit(pt, AxisY);
    UnitTrialBend(pt, AxisX);
    UnitTrialBend(pt, AxisY);
    InteriorBend(pt);
    LaplaceUnitGradient(LinearActivation(), OneUnit(), bc, par, 0, pt);
  }

  /** The same setting along the x input weight: the own-axis
      accumulation misses x * d2P/dy2, which is negative inside the square
      (-1/4 at the centre). */
  lemma CrossAxisCounterexample(bc: Edges, pt: Pair)
    requires Interior(pt)
    ensures PointGradient(Laplace(), LinearActivation(), OneUnit(), bc, In(AxisX), 0, pt)
          - PointGradientAsWritten(Laplace(), LinearActivation(), OneUnit(), bc, In(AxisX), 0, pt)
         == EnvelopeDyy(pt) * pt.x
    ensures PointGradient(Laplace(), LinearActivation(), OneUnit(), bc, In(AxisX), 0, pt)
          < PointGradientAsWritten(Laplace(), LinearActivation(), OneUnit(), bc, In(AxisX), 0, pt)
  {
    LinearRatesCross(pt);
    CrossTrialBend(pt);
    InteriorBend(pt);
    NegativeProduct(EnvelopeDyy(pt), pt.x);
    LaplaceWeightGradient(LinearActivation(), OneUnit(), bc, 0, pt);
  }

  /** G at one point for the trial solution t there. */
  function GAt(eq: Equation, pt: Pair, t: TrialPoint): real
  {
    eq.G(pt, t.yt, t.del, t.del2)
  }

  /** G at every training point. */
  function Residuals(eq: Equation, act: Sigmoid, p: Params, bc: Edges, xs: seq<Pair>): (r: seq<real>)
    requires p.Valid()
    ensures |r| == |xs|
  {
    seq(|xs|, i requires 0 <= i < |xs| => GAt(eq, xs[i], Trial(act, p, bc, xs[i])))
  }

  /** E = sum of G^2 over the training points: never negative, and zero
      exactly when G vanishes at every training point. */
  function ErrorOf(eq: Equation, act: Sigmoid, p: Params, bc: Edges, xs: seq<Pair>): (e: real)
    requires p.Valid()
    ensures e >= 0.0
    ensures e == 0.0 <==> AllZero(Residuals(eq, act, p, bc, xs))
  {
    Error(Residuals(eq, act, p, bc, xs))
  }

  /** dG along parameter `par` of unit k at every training point. */
  function PointGradients(eq: Equation, act: Sigmoid, p: Params, bc: Edges, xs: seq<Pair>, par: Param, k: nat): (d: seq<real>)
    requires p.Valid() && k < |p.v|
    ensures |d| == |xs|
  {
    seq(|xs|, i requires 0 <= i < |xs| => PointGradient(eq, act, p, bc, par, k, xs[i]))
  }

  /** dE along parameter `par` of unit k: zero when G vanishes at every
      training point. */
  function ParamGradient(eq: Equation, act: Sigmoid, p: Params, bc: Edges, xs: seq<Pair>, par: Param, k: nat): (g: real)
    requires p.Valid() && k < |p.v|
    ensures AllZero(Residuals(eq, act, p, bc, xs)) ==> g == 0.0
  {
    Grad(Residuals(eq, act, p, bc, xs), PointGradients(eq, act, p, bc, xs, par, k))
  }

  /** The accumulated dE is the first parameter derivative of the sum of
      the squared residual series, whatever their second rates. */
  lemma ParamGradientSeries(eq: Equation, act: Sigmoid, p: Params, bc: Edges, xs: seq<Pair>, par: Param, k: nat, c: seq<real>)
    requires p.Valid() && k < |p.v| && |c| == |xs|
    ensures ParamGradient(eq, act, p, bc, xs, par, k)
         == D(JetSum(SquaredSeries(Residuals(eq, act, p, bc, xs), PointGradients(eq, act, p, bc, xs, par, k), c)), 0, 1)
  {
    ErrorSeries(Residuals(eq, act, p, bc, xs), PointGradients(eq, act, p, bc, xs, par, k), c);
  }

  /** dE along one parameter of every unit. */
  function FamilyGradient(eq: Equation, act: Sigmoid, p: Params, bc: Edges, xs: seq<Pair>, par: Param): (g: seq<real>)
    requires p.Valid()
    ensures |g| == |p.v|
    ensures AllZero(Residuals(eq, act, p, bc, xs)) ==> AllZero(g)
  {
    seq(|p.v|, k requires 0 <= k < |p.v| => ParamGradient(eq, act, p, bc, xs, par, k))
  }

  /** dE for every parameter, arranged like the parameters. */
  function Gradient(eq: Equation, act: Sigmoid, p: Params, bc: Edges, xs: seq<Pair>): (g: Params)
    requires p.Valid()
    ensures g.Valid() && |g.v| == |p.v|
    ensures AllZero(Residuals(eq, act, p, bc, xs)) ==> ZeroGradient(g)
  {
    Params(FamilyGradient(eq, act, p, bc, xs, Out), FamilyGradient(eq, act, p, bc, xs, Bias),
           FamilyGradient(eq, act, p, bc, xs, In(AxisX)), FamilyGradient(eq, act, p, bc, xs, In(AxisY)))
  }

  /** Whether every entry of a gradient is zero. */
  predicate ZeroGradient(g: Params)
  {
    AllZero(g.v) && AllZero(g.u) && AllZero(g.wx) && AllZero(g.wy)
  }

  /** The gradient-descent update of every parameter from the same
      snapshot: with a positive rate a parameter moves exactly when its
      gradient entry is non-zero, and then against the sign of that entry. */
  function Descend(p: Params, g: Params, eta: real): (q: Params)
    requires p.Valid() && g.Valid() && |g.v| == |p.v|
    ensures q.Valid() && |q.v| == |p.v|
    ensures eta > 0.0 ==> forall k :: 0 <= k < |p.v| ==>
      (q.v[k] == p.v[k] <==> g.v[k] == 0.0) && (q.u[k] == p.u[k] <==> g.u[k] == 0.0)
      && (q.wx[k] == p.wx[k] <==> g.wx[k] == 0.0) && (q.wy[k] == p.wy[k] <==> g.wy[k] == 0.0)
    ensures eta > 0.0 ==> forall k :: 0 <= k < |p.v| ==>
      (q.v[k] < p.v[k] <==> g.v[k] > 0.0) && (q.u[k] < p.u[k] <==> g.u[k] > 0.0)
      && (q.wx[k] < p.wx[k] <==> g.wx[k] > 0.0) && (q.wy[k] < p.wy[k] <==> g.wy[k] > 0.0)
    ensures ZeroGradient(g) ==> q == p
  {
    if ZeroGradient(g) then
      StepsFixZeroGradient(p.v, g.v, p.v, eta);
      StepsFixZeroGradient(p.u, g.u, p.u, eta);
      StepsFixZeroGradient(p.wx, g.wx, p.wx, eta);
      StepsFixZeroGradient(p.wy, g.wy, p.wy, eta);
      Params(DescentStep(p.v, g.v, eta), DescentStep(p.u, g.u, eta), DescentStep(p.wx, g.wx, eta), DescentStep(p.wy, g.wy, eta))
    else
      Params(DescentStep(p.v, g.v, eta), DescentStep(p.u, g.u, eta), DescentStep(p.wx, g.wx, eta), DescentStep(p.wy, g.wy, eta))
  }

  /** One training epoch. A snapshot at which G vanishes at every training
      point is a fixed point. */
  function Epoch(eq: Equation, act: Sigmoid, bc: Edges, xs: seq<Pair>, p: Params, eta: real): (q: Params)
    requires p.Valid()
    ensures q.Valid() && |q.v| == |p.v|
    ensures AllZero(Residuals(eq, act, p, bc, xs)) ==> q == p
  {
    Descend(p, Gradient(eq, act, p, bc, xs), eta)
  }

  /** The snapshot after `epochs` epochs. */
  function Run(eq: Equation, act: Sigmoid, bc: Edges, xs: seq<Pair>, p: Params, eta: real, epochs: nat): (q: Params)
    requires p.Valid()
    ensures q.Valid() && |q.v| == |p.v|
    decreases epochs
  {
    if epochs == 0 then p else Run(eq, act, bc, xs, Epoch(eq, act, bc, xs, p, eta), eta, epochs - 1)
  }

  /** A snapshot that solves the equation at every training point stays
      put however long training runs. */
  lemma {:induction false} RunFixedPoint(eq: Equation, act: Sigmoid, bc: Edges, xs: seq<Pair>, p: Params, eta: real, epochs: nat)
    requires p.Valid()
    requires AllZero(Residuals(eq, act, p, bc, xs))
    ensures Run(eq, act, bc, xs, p, eta, epochs) == p
    decreases epochs
  {
    if epochs > 0 {
      RunFixedPoint(eq, act, bc, xs, p, eta, epochs - 1);
    }
  }

  /** The trained trial solution, its gradient and its second derivatives
      at the training points. */
  datatype Solution = Solution(yt: seq<real>, del: seq<Pair>, del2: seq<Pair>)

  /** The trial solution at every training point; on the boundary lines it
      takes the anchor's value. */
  function TrialSolution(act: Sigmoid, bc: Edges, xs: seq<Pair>, p: Params): (s: Solution)
    requires p.Valid()
    ensures |s.yt| == |xs| && |s.del| == |xs| && |s.del2| == |xs|
    ensures forall i :: 0 <= i < |xs| && (xs[i].x == 0.0 || xs[i].x == 1.0 || xs[i].y == 0.0 || xs[i].y == 1.0) ==>
      s.yt[i] == Anchor(xs[i], bc)
  {
    Solution(seq(|xs|, i requires 0 <= i < |xs| => Trial(act, p, bc, xs[i]).yt),
             seq(|xs|, i requires 0 <= i < |xs| => Trial(act, p, bc, xs[i]).del),
             seq(|xs|, i requires 0 <= i < |xs| => Trial(act, p, bc, xs[i]).del2))
  }

  /** Training for `maxepochs` epochs. The values returned are those
      computed in the last epoch, before its update, so they come from the
      snapshot after maxepochs - 1 updates; on the boundary lines they are
      the anchor's values whatever the training did.
      Like the argument checks of nnpde2bvp.py, it asks for at least one training
      point, one hidden unit and one epoch, and a positive learning rate. */
  function Train(eq: Equation, act: Sigmoid, bc: Edges, xs: seq<Pair>, p0: Params, maxepochs: nat, eta: real): (s: Solution)
    requires p0.Valid() && |p0.v| > 0 && |xs| > 0 && maxepochs > 0 && eta > 0.0
    ensures |s.yt| == |xs| && |s.del| == |xs| && |s.del2| == |xs|
    ensures forall i :: 0 <= i < |xs| && (xs[i].x == 0.0 || xs[i].x == 1.0 || xs[i].y == 0.0 || xs[i].y == 1.0) ==>
      s.yt[i] == Anchor(xs[i], bc)
    ensures s == TrialSolution(act, bc, xs, Run(eq, act, bc, xs, p0, eta, maxepochs - 1))
  {
    TrialSolution(act, bc, xs, Run(eq, act, bc, xs, p0, eta, maxepochs - 1))
  }

  /** If the epochs leave the initial snapshot where it was, training
      returns that snapshot's trial solution. */
  lemma TrainFrom(eq: Equation, act: Sigmoid, bc: Edges, xs: seq<Pair>, p0: Params, maxepochs: nat, eta: real)
    requires p0.Valid() && |p0.v| > 0 && |xs| > 0 && maxepochs > 0 && eta > 0.0
    requires Run(eq, act, bc, xs, p0, eta, maxepochs - 1) == p0
    ensures Train(eq, act, bc, xs, p0, maxepochs, eta) == TrialSolution(act, bc, xs, p0)
  {
  }

  /** Training from a snapshot at which G already vanishes at every training
      point returns that snapshot's trial solution. */
  lemma TrainSolved(eq: Equation, act: Sigmoid, bc: Edges, xs: seq<Pair>, p0: Params, maxepochs: nat, eta: real)
    requires p0.Valid() && |p0.v| > 0 && |xs| > 0 && maxepochs > 0 && eta > 0.0
    requires AllZero(Residuals(eq, act, p0, bc, xs))
    ensures Train(eq, act, bc, xs, p0, maxepochs, eta) == TrialSolution(act, bc, xs, p0)
  {
    RunFixedPoint(eq, act, bc, xs, p0, eta, maxepochs - 1);
    TrainFrom(eq, act, bc, xs, p0, maxepochs, eta);
  }
}
