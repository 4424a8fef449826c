/** The independent derivation of the network's hand-written partials: each
    hidden unit's output written as a jet, built from the input, the parameter
    and the activation by the jet operations alone, so that its derivatives
    come from the chain and product rules rather than from the formulas of
    the solvers. */
module UnitJets {
  import opened Algebra
  import opened Sums
  import opened Jets
  import opened Activation
  import opened Sensitivity
  import opened Network1

  /** The output of unit k as a jet in x and in the unit's parameter of the
      given family, every other parameter held fixed. */
  function UnitJet(act: Sigmoid, p: Params, fam: Family, k: nat, x: real): Jet
    requires p.Valid() && k < |p.v|
  {
    match fam
    case V => Mul(VarP(p.v[k]), Lift(act, Add(Scale(p.w[k], VarX(x)), Const(p.u[k]))))
    case U => Scale(p.v[k], Lift(act, Add(Scale(p.w[k], VarX(x)), VarP(p.u[k]))))
    case W => Scale(p.v[k], Lift(act, Add(Mul(VarP(p.w[k]), VarX(x)), Const(p.u[k]))))
  }

  /** The activation's jet along x alone, the net input moving by w per unit
      of x. */
  function InputLift(s0: real, s1: real, s2: real, w: real): Jet
  {
    Jet(s0, 0.0, 0.0, s1 * w, 0.0, 0.0, s2 * w * w / 2.0, 0.0, 0.0)
  }

  /** The activation's jet along a bias: the net input moves one for one. */
  function BiasLift(s0: real, s1: real, s2: real, s3: real, s4: real, w: real): Jet
  {
    Jet(s0, s1, s2 / 2.0, s1 * w, s2 * w, s3 * w / 2.0, s2 * w * w / 2.0, s3 * w * w / 2.0, s4 * w * w / 4.0)
  }

  /** The activation's jet along a weight: the net input moves by x per unit
      of weight, with the cross term dx*dw. */
  function WeightLift(s0: real, s1: real, s2: real, s3: real, s4: real, x: real, w: real): Jet
  {
    Jet(s0, s1 * x, s2 * x * x / 2.0,
        s1 * w, s1 + s2 * x * w, s2 * x + s3 * x * x * w / 2.0,
        s2 * w * w / 2.0, s2 * w + s3 * x * w * w / 2.0,
        s2 / 2.0 + s3 * x * w + s4 * x * x * w * w / 4.0)
  }

  /** The activation of z + w*dx, in the form InputLift names. */
  lemma LiftInput(act: Sigmoid, z: real, w: real)
    ensures Lift(act, Jet(z, 0.0, 0.0, w, 0.0, 0.0, 0.0, 0.0, 0.0))
         == InputLift(act.s0(z), act.s1(z), act.s2(z), w)
  {
    var e1 := Shift(Jet(z, 0.0, 0.0, w, 0.0, 0.0, 0.0, 0.0, 0.0));
    assert e1 == Jet(0.0, 0.0, 0.0, w, 0.0, 0.0, 0.0, 0.0, 0.0);
    var e2 := Mul(e1, e1);
    assert e2 == Jet(0.0, 0.0, 0.0, 0.0, 0.0, 0.0, w * w, 0.0, 0.0);
    assert Mul(e2, e1) == Const(0.0);
  }

  /** The activation of z + dp + w*dx, in the form BiasLift names. */
  lemma LiftBias(act: Sigmoid, z: real, w: real)
    ensures Lift(act, Jet(z, 1.0, 0.0, w, 0.0, 0.0, 0.0, 0.0, 0.0))
         == BiasLift(act.s0(z), act.s1(z), act.s2(z), act.s3(z), act.s4(z), w)
  {
    var e1 := Shift(Jet(z, 1.0, 0.0, w, 0.0, 0.0, 0.0, 0.0, 0.0));
    assert e1 == Jet(0.0, 1.0, 0.0, w, 0.0, 0.0, 0.0, 0.0, 0.0);
    var e2 := Mul(e1, e1);
    assert e2 == Jet(0.0, 0.0, 1.0, 0.0, 2.0 * w, 0.0, w * w, 0.0, 0.0);
    var e3 := Mul(e2, e1);
    assert e3 == Jet(0.0, 0.0, 0.0, 0.0, 0.0, 3.0 * w, 0.0, 3.0 * w * w, 0.0);
    var e4 := Mul(e3, e1);
    assert e4 == Jet(0.0, 0.0, 0.0, 0.0, 0.0, 0.0, 0.0, 0.0, 6.0 * w * w);
  }

  // The powers of the displacement x*dp + w*dx + dx*dp, one product at a time.

  lemma WeightSquare(x: real, w: real)
    ensures Mul(Jet(0.0, x, 0.0, w, 1.0, 0.0, 0.0, 0.0, 0.0), Jet(0.0, x, 0.0, w, 1.0, 0.0, 0.0, 0.0, 0.0))
         == Jet(0.0, 0.0, x * x, 0.0, 2.0 * x * w, 2.0 * x, w * w, 2.0 * w, 1.0)
  {
  }

  lemma WeightCube(x: real, w: real)
    ensures Mul(Jet(0.0, 0.0, x * x, 0.0, 2.0 * x * w, 2.0 * x, w * w, 2.0 * w, 1.0),
                Jet(0.0, x, 0.0, w, 1.0, 0.0, 0.0, 0.0, 0.0))
         == Jet(0.0, 0.0, 0.0, 0.0, 0.0, 3.0 * x * x * w, 0.0, 3.0 * x * w * w, 6.0 * x * w)
  {
  }

  lemma WeightFourth(x: real, w: real)
    ensures Mul(Jet(0.0, 0.0, 0.0, 0.0, 0.0, 3.0 * x * x * w, 0.0, 3.0 * x * w * w, 6.0 * x * w),
                Jet(0.0, x, 0.0, w, 1.0, 0.0, 0.0, 0.0, 0.0))
         == Jet(0.0, 0.0, 0.0, 0.0, 0.0, 0.0, 0.0, 0.0, 6.0 * x * x * w * w)
  {
  }

  /** The activation of z + x*dp + w*dx + dx*dp, in the form WeightLift names. */
  lemma LiftWeight(act: Sigmoid, z: real, x: real, w: real)
    ensures Lift(act, Jet(z, x, 0.0, w, 1.0, 0.0, 0.0, 0.0, 0.0))
         == WeightLift(act.s0(z), act.s1(z), act.s2(z), act.s3(z), act.s4(z), x, w)
  {
    var e1 := Shift(Jet(z, x, 0.0, w, 1.0, 0.0, 0.0, 0.0, 0.0));
    assert e1 == Jet(0.0, x, 0.0, w, 1.0, 0.0, 0.0, 0.0, 0.0);
    WeightSquare(x, w);
    WeightCube(x, w);
    WeightFourth(x, w);
  }

  /** A unit's jet in closed form, from the activation's derivatives s0 to s4
      at its net input, its output weight v, its input weight w and the point x. */
  function FamilyJet(fam: Family, s0: real, s1: real, s2: real, s3: real, s4: real, v: real, w: real, x: real): Jet
  {
    match fam
    case V => Mul(VarP(v), InputLift(s0, s1, s2, w))
    case U => Scale(v, BiasLift(s0, s1, s2, s3, s4, w))
    case W => Scale(v, WeightLift(s0, s1, s2, s3, s4, x, w))
  }

  /** Along the output weight, with the net input z = w*x + u. */
  lemma InputJetClosed(act: Sigmoid, v: real, w: real, u: real, x: real, z: real)
    requires z == w * x + u
    ensures Mul(VarP(v), Lift(act, Add(Scale(w, VarX(x)), Const(u))))
         == FamilyJet(V, act.s0(z), act.s1(z), act.s2(z), act.s3(z), act.s4(z), v, w, x)
  {
    assert Add(Scale(w, VarX(x)), Const(u)) == Jet(z, 0.0, 0.0, w, 0.0, 0.0, 0.0, 0.0, 0.0);
    LiftInput(act, z, w);
  }

  /** Along the bias, with the net input z = w*x + u. */
  lemma BiasJetClosed(act: Sigmoid, v: real, w: real, u: real, x: real, z: real)
    requires z == w * x + u
    ensures Scale(v, Lift(act, Add(Scale(w, VarX(x)), VarP(u))))
         == FamilyJet(U, act.s0(z), act.s1(z), act.s2(z), act.s3(z), act.s4(z), v, w, x)
  {
    assert Add(Scale(w, VarX(x)), VarP(u)) == Jet(z, 1.0, 0.0, w, 0.0, 0.0, 0.0, 0.0, 0.0);
    LiftBias(act, z, w);
  }

  /** Along the input weight, with the net input z = w*x + u. */
  lemma WeightJetClosed(act: Sigmoid, v: real, w: real, u: real, x: real, z: real)
    requires z == w * x + u
    ensures Scale(v, Lift(act, Add(Mul(VarP(w), VarX(x)), Const(u))))
         == FamilyJet(W, act.s0(z), act.s1(z), act.s2(z), act.s3(z), act.s4(z), v, w, x)
  {
    assert Add(Mul(VarP(w), VarX(x)), Const(u)) == Jet(z, x, 0.0, w, 1.0, 0.0, 0.0, 0.0, 0.0);
    LiftWeight(act, z, x, w);
  }

  /** Unit k's jet along its output weight, in closed form. */
  lemma UnitJetVClosed(act: Sigmoid, p: Params, k: nat, x: real)
    requires p.Valid() && k < |p.v|
    ensures UnitJet(act, p, V, k, x)
         == FamilyJet(V, act.s0(Z(p, k, x)), act.s1(Z(p, k, x)), act.s2(Z(p, k, x)), act.s3(Z(p, k, x)),
                      act.s4(Z(p, k, x)), p.v[k], p.w[k], x)
  {
    InputJetClosed(act, p.v[k], p.w[k], p.u[k], x, Z(p, k, x));
  }

  /** Unit k's jet along its bias, in closed form. */
  lemma UnitJetUClosed(act: Sigmoid, p: Params, k: nat, x: real)
    requires p.Valid() && k < |p.v|
    ensures UnitJet(act, p, U, k, x)
         == FamilyJet(U, act.s0(Z(p, k, x)), act.s1(Z(p, k, x)), act.s2(Z(p, k, x)), act.s3(Z(p, k, x)),
                      act.s4(Z(p, k, x)), p.v[k], p.w[k], x)
  {
    BiasJetClosed(act, p.v[k], p.w[k], p.u[k], x, Z(p, k, x));
  }

  /** Unit k's jet along its input weight, in closed form. */
  lemma UnitJetWClosed(act: Sigmoid, p: Params, k: nat, x: real)
    requires p.Valid() && k < |p.v|
    ensures UnitJet(act, p, W, k, x)
         == FamilyJet(W, act.s0(Z(p, k, x)), act.s1(Z(p, k, x)), act.s2(Z(p, k, x)), act.s3(Z(p, k, x)),
                      act.s4(Z(p, k, x)), p.v[k], p.w[k], x)
  {
    WeightJetClosed(act, p.v[k], p.w[k], p.u[k], x, Z(p, k, x));
  }

  /** Unit k's jet is the closed form at its net input. */
  lemma UnitJetClosedForm(act: Sigmoid, p: Params, fam: Family, k: nat, x: real)
    requires p.Valid() && k < |p.v|
    ensures UnitJet(act, p, fam, k, x)
         == FamilyJet(fam, act.s0(Z(p, k, x)), act.s1(Z(p, k, x)), act.s2(Z(p, k, x)), act.s3(Z(p, k, x)),
                      act.s4(Z(p, k, x)), p.v[k], p.w[k], x)
  {
    match fam
    case V => UnitJetVClosed(act, p, k, x);
    case U => UnitJetUClosed(act, p, k, x);
    case W => UnitJetWClosed(act, p, k, x);
  }

  /** Whether jet `j` has the value and x-derivatives listed in `c`. */
  predicate HasValues(j: Jet, c: Contribution)
  {
    D(j, 0, 0) == c.n && D(j, 1, 0) == c.nx && D(j, 2, 0) == c.nxx
  }

  /** Whether the parameter partials of jet `j` are those listed in `q`. */
  predicate Carries(j: Jet, q: Partials)
  {
    D(j, 0, 1) == q.dp && D(j, 0, 2) == q.dpp && D(j, 1, 1) == q.dpx
    && D(j, 1, 2) == q.dppx && D(j, 2, 1) == q.dpxx && D(j, 2, 2) == q.dppxx
  }

  /** Scaling a jet scales the partials it carries. */
  lemma ScaleCarries(v: real, b: Jet, q: Partials)
    requires Carries(b, q)
    ensures Carries(Scale(v, b), ScalePartials(v, q))
  {
    ScaleFields(v, q);
    DScale(v, b, 0, 1);
    DScale(v, b, 0, 2);
    DScale(v, b, 1, 1);
    DScale(v, b, 1, 2);
    DScale(v, b, 2, 1);
    DScale(v, b, 2, 2);
    ScaleEqual(v, D(b, 0, 1), q.dp, D(Scale(v, b), 0, 1), ScalePartials(v, q).dp);
    ScaleEqual(v, D(b, 0, 2), q.dpp, D(Scale(v, b), 0, 2), ScalePartials(v, q).dpp);
    ScaleEqual(v, D(b, 1, 1), q.dpx, D(Scale(v, b), 1, 1), ScalePartials(v, q).dpx);
    ScaleEqual(v, D(b, 1, 2), q.dppx, D(Scale(v, b), 1, 2), ScalePartials(v, q).dppx);
    ScaleEqual(v, D(b, 2, 1), q.dpxx, D(Scale(v, b), 2, 1), ScalePartials(v, q).dpxx);
    ScaleEqual(v, D(b, 2, 2), q.dppxx, D(Scale(v, b), 2, 2), ScalePartials(v, q).dppxx);
  }

  /** Scaling a unit's jet scales its value and x-derivatives. The factors
      are passed apart so that the products stay in one normal form. */
  lemma ScaleHasValues(v: real, b: Jet, s0: real, s1: real, s2: real, w: real)
    requires HasValues(b, UnitContribution(1.0, s0, s1, s2, w))
    ensures HasValues(Scale(v, b), UnitContribution(v, s0, s1, s2, w))
  {
    DScale(v, b, 0, 0);
    DScale(v, b, 1, 0);
    DScale(v, b, 2, 0);
  }

  /** Along the output weight: the jet of v * sigma carries the v-partials. */
  lemma InputLiftCarries(v: real, s0: real, s1: real, s2: real, w: real)
    ensures HasValues(Mul(VarP(v), InputLift(s0, s1, s2, w)), UnitContribution(v, s0, s1, s2, w))
    ensures Carries(Mul(VarP(v), InputLift(s0, s1, s2, w)), PartialsV(s0, s1, s2, w))
  {
  }

  /** Along the bias: the closed form carries the bias factors. */
  lemma BiasLiftCarries(s0: real, s1: real, s2: real, s3: real, s4: real, w: real)
    ensures HasValues(BiasLift(s0, s1, s2, s3, s4, w), UnitContribution(1.0, s0, s1, s2, w))
    ensures Carries(BiasLift(s0, s1, s2, s3, s4, w), BiasFactors(s1, s2, s3, s4, w))
  {
  }

  /** Along the input weight: the closed form carries the weight factors. */
  lemma WeightLiftCarries(s0: real, s1: real, s2: real, s3: real, s4: real, x: real, w: real)
    ensures HasValues(WeightLift(s0, s1, s2, s3, s4, x, w), UnitContribution(1.0, s0, s1, s2, w))
    ensures Carries(WeightLift(s0, s1, s2, s3, s4, x, w), WeightFactors(s1, s2, s3, s4, w, x))
  {
  }

  /** Along the output weight: the closed form's values and partials. */
  lemma FamilyJetV(s0: real, s1: real, s2: real, s3: real, s4: real, v: real, w: real, x: real)
    ensures HasValues(FamilyJet(V, s0, s1, s2, s3, s4, v, w, x), UnitContribution(v, s0, s1, s2, w))
    ensures Carries(FamilyJet(V, s0, s1, s2, s3, s4, v, w, x), FamilyPartials(V, s0, s1, s2, s3, s4, v, w, x))
  {
    FamilyCases(s0, s1, s2, s3, s4, v, w, x);
    InputLiftCarries(v, s0, s1, s2, w);
  }

  /** Along the bias: the closed form's values and partials. */
  lemma FamilyJetU(s0: real, s1: real, s2: real, s3: real, s4: real, v: real, w: real, x: real)
    ensures HasValues(FamilyJet(U, s0, s1, s2, s3, s4, v, w, x), UnitContribution(v, s0, s1, s2, w))
    ensures Carries(FamilyJet(U, s0, s1, s2, s3, s4, v, w, x), FamilyPartials(U, s0, s1, s2, s3, s4, v, w, x))
  {
    FamilyCases(s0, s1, s2, s3, s4, v, w, x);
    assert FamilyJet(U, s0, s1, s2, s3, s4, v, w, x) == Scale(v, BiasLift(s0, s1, s2, s3, s4, w));
    BiasLiftCarries(s0, s1, s2, s3, s4, w);
    ScaleCarries(v, BiasLift(s0, s1, s2, s3, s4, w), BiasFactors(s1, s2, s3, s4, w));
    ScaleHasValues(v, BiasLift(s0, s1, s2, s3, s4, w), s0, s1, s2, w);
  }

  /** Along the input weight: the closed form's values and partials. */
  lemma FamilyJetW(s0: real, s1: real, s2: real, s3: real, s4: real, v: real, w: real, x: real)
    ensures HasValues(FamilyJet(W, s0, s1, s2, s3, s4, v, w, x), UnitContribution(v, s0, s1, s2, w))
    ensures Carries(FamilyJet(W, s0, s1, s2, s3, s4, v, w, x), FamilyPartials(W, s0, s1, s2, s3, s4, v, w, x))
  {
    FamilyCases(s0, s1, s2, s3, s4, v, w, x);
    assert FamilyJet(W, s0, s1, s2, s3, s4, v, w, x) == Scale(v, WeightLift(s0, s1, s2, s3, s4, x, w));
    WeightLiftCarries(s0, s1, s2, s3, s4, x, w);
    ScaleCarries(v, WeightLift(s0, s1, s2, s3, s4, x, w), WeightFactors(s1, s2, s3, s4, w, x));
    ScaleHasValues(v, WeightLift(s0, s1, s2, s3, s4, x, w), s0, s1, s2, w);
  }

  /** The closed-form jet of every family carries that family's partials,
      and its value and x-derivatives are the unit's contributions to N. */
  lemma FamilyJetDerivatives(fam: Family, s0: real, s1: real, s2: real, s3: real, s4: real, v: real, w: real, x: real)
    ensures HasValues(FamilyJet(fam, s0, s1, s2, s3, s4, v, w, x), UnitContribution(v, s0, s1, s2, w))
    ensures Carries(FamilyJet(fam, s0, s1, s2, s3, s4, v, w, x), FamilyPartials(fam, s0, s1, s2, s3, s4, v, w, x))
  {
    match fam
    case V => FamilyJetV(s0, s1, s2, s3, s4, v, w, x);
    case U => FamilyJetU(s0, s1, s2, s3, s4, v, w, x);
    case W => FamilyJetW(s0, s1, s2, s3, s4, v, w, x);
  }

  /** The hand-written partials of unit k agree with the derivatives of its
      jet: the value and x-derivatives are the unit's terms of N, Nx and Nxx,
      and the parameter partials are those UnitPartials lists, whichever
      parameter family is varied. */
  lemma UnitJetDerivatives(act: Sigmoid, p: Params, fam: Family, k: nat, x: real)
    requires p.Valid() && k < |p.v|
    ensures HasValues(UnitJet(act, p, fam, k, x), UnitContribution(p.v[k], act.s0(Z(p, k, x)), act.s1(Z(p, k, x)), act.s2(Z(p, k, x)), p.w[k]))
    ensures Carries(UnitJet(act, p, fam, k, x), UnitPartials(act, p, fam, k, x))
  {
    UnitJetClosedForm(act, p, fam, k, x);
    FamilyJetDerivatives(fam, act.s0(Z(p, k, x)), act.s1(Z(p, k, x)), act.s2(Z(p, k, x)), act.s3(Z(p, k, x)),
                         act.s4(Z(p, k, x)), p.v[k], p.w[k], x);
  }

  /** Unit k's jet in closed form, at its net input. */
  function UnitClosedJet(act: Sigmoid, p: Params, fam: Family, k: nat, x: real): Jet
    requires p.Valid() && k < |p.v|
  {
    FamilyJet(fam, act.s0(Z(p, k, x)), act.s1(Z(p, k, x)), act.s2(Z(p, k, x)), act.s3(Z(p, k, x)), act.s4(Z(p, k, x)), p.v[k], p.w[k], x)
  }

  /** The jets of all units when one parameter of unit k varies: unit k's
      jet `jk`, and for every other unit its value and x-derivatives, which
      do not depend on that parameter. */
  function UnitsWith(act: Sigmoid, p: Params, k: nat, x: real, jk: Jet): (js: seq<Jet>)
    requires p.Valid() && k < |p.v|
    ensures |js| == |p.v|
    ensures js[k] == jk
  {
    seq(|p.v|, j requires 0 <= j < |p.v| =>
      if j == k then jk
      else SeriesX(UnitN(act, p, j, x), UnitNx(act, p, j, x), UnitNxx(act, p, j, x)))
  }

  /** The network output as a jet in x and parameter k of family `fam`. */
  function NetJet(act: Sigmoid, p: Params, fam: Family, k: nat, x: real): Jet
    requires p.Valid() && k < |p.v|
  {
    JetSum(UnitsWith(act, p, k, x, UnitClosedJet(act, p, fam, k, x)))
  }

  /** Unit k's terms of N, dN/dx and d2N/dx2 in the network's own words. */
  lemma UnitTerms(act: Sigmoid, p: Params, k: nat, x: real)
    requires p.Valid() && k < |p.v|
    ensures UnitContribution(p.v[k], act.s0(Z(p, k, x)), act.s1(Z(p, k, x)), act.s2(Z(p, k, x)), p.w[k])
         == Contribution(UnitN(act, p, k, x), UnitNx(act, p, k, x), UnitNxx(act, p, k, x))
  {
  }

  /** Unit k's closed-form jet has its terms of N and its x-derivatives, and
      carries its partials along the varied parameter. */
  lemma ClosedJetDerivatives(act: Sigmoid, p: Params, fam: Family, k: nat, x: real)
    requires p.Valid() && k < |p.v|
    ensures HasValues(UnitClosedJet(act, p, fam, k, x),
                      Contribution(UnitN(act, p, k, x), UnitNx(act, p, k, x), UnitNxx(act, p, k, x)))
    ensures Carries(UnitClosedJet(act, p, fam, k, x), UnitPartials(act, p, fam, k, x))
  {
    UnitTerms(act, p, k, x);
    FamilyJetDerivatives(fam, act.s0(Z(p, k, x)), act.s1(Z(p, k, x)), act.s2(Z(p, k, x)), act.s3(Z(p, k, x)),
                         act.s4(Z(p, k, x)), p.v[k], p.w[k], x);
  }

  /** Unit k's share of N and its x-derivatives. */
  predicate UnitValues(act: Sigmoid, p: Params, k: nat, x: real, jk: Jet)
    requires p.Valid() && k < |p.v|
  {
    HasValues(jk, Contribution(UnitN(act, p, k, x), UnitNx(act, p, k, x), UnitNxx(act, p, k, x)))
  }

  /** The sum's value is N. */
  lemma UnitsWithValue(act: Sigmoid, p: Params, k: nat, x: real, jk: Jet)
    requires p.Valid() && k < |p.v|
    requires UnitValues(act, p, k, x, jk)
    ensures D(JetSum(UnitsWith(act, p, k, x, jk)), 0, 0) == N(act, p, x)
  {
    var js := UnitsWith(act, p, k, x, jk);
    JetSumDerivative(js, 0, 0);
    SumCongruent(seq(|p.v|, j requires 0 <= j < |p.v| => UnitN(act, p, j, x)), Derivatives(js, 0, 0));
  }

  /** The sum's first x-derivative is dN/dx. */
  lemma UnitsWithSlope(act: Sigmoid, p: Params, k: nat, x: real, jk: Jet)
    requires p.Valid() && k < |p.v|
    requires UnitValues(act, p, k, x, jk)
    ensures D(JetSum(UnitsWith(act, p, k, x, jk)), 1, 0) == Nx(act, p, x)
  {
    var js := UnitsWith(act, p, k, x, jk);
    JetSumDerivative(js, 1, 0);
    SumCongruent(seq(|p.v|, j requires 0 <= j < |p.v| => UnitNx(act, p, j, x)), Derivatives(js, 1, 0));
  }

  /** The sum's second x-derivative is d2N/dx2. */
  lemma UnitsWithBend(act: Sigmoid, p: Params, k: nat, x: real, jk: Jet)
    requires p.Valid() && k < |p.v|
    requires UnitValues(act, p, k, x, jk)
    ensures D(JetSum(UnitsWith(act, p, k, x, jk)), 2, 0) == Nxx(act, p, x)
  {
    var js := UnitsWith(act, p, k, x, jk);
    JetSumDerivative(js, 2, 0);
    SumCongruent(seq(|p.v|, j requires 0 <= j < |p.v| => UnitNxx(act, p, j, x)), Derivatives(js, 2, 0));
  }

  /** Only unit k depends on the varied parameter, so every parameter
      derivative of the sum is that of unit k's jet. */
  lemma UnitsWithPartial(act: Sigmoid, p: Params, k: nat, x: real, jk: Jet, i: nat, j: nat)
    requires p.Valid() && k < |p.v|
    requires i <= 2 && 1 <= j <= 2
    ensures D(JetSum(UnitsWith(act, p, k, x, jk)), i, j) == D(jk, i, j)
  {
    var js := UnitsWith(act, p, k, x, jk);
    JetSumDerivative(js, i, j);
    forall m | 0 <= m < |js| && m != k
      ensures Derivatives(js, i, j)[m] == 0.0
    {
    }
    SumSingle(Derivatives(js, i, j), k);
  }

  /** The network as a jet around unit k's jet `jk`: when `jk` has unit k's
      share of the output, the sum has N, Nx and Nxx, and its parameter
      derivatives are those of `jk`. */
  lemma UnitsWithDerivatives(act: Sigmoid, p: Params, k: nat, x: real, jk: Jet)
    requires p.Valid() && k < |p.v|
    requires UnitValues(act, p, k, x, jk)
    ensures HasValues(JetSum(UnitsWith(act, p, k, x, jk)), Contribution(N(act, p, x), Nx(act, p, x), Nxx(act, p, x)))
    ensures D(JetSum(UnitsWith(act, p, k, x, jk)), 0, 1) == D(jk, 0, 1)
    ensures D(JetSum(UnitsWith(act, p, k, x, jk)), 0, 2) == D(jk, 0, 2)
    ensures D(JetSum(UnitsWith(act, p, k, x, jk)), 1, 1) == D(jk, 1, 1)
    ensures D(JetSum(UnitsWith(act, p, k, x, jk)), 1, 2) == D(jk, 1, 2)
    ensures D(JetSum(UnitsWith(act, p, k, x, jk)), 2, 1) == D(jk, 2, 1)
    ensures D(JetSum(UnitsWith(act, p, k, x, jk)), 2, 2) == D(jk, 2, 2)
  {
    UnitsWithValue(act, p, k, x, jk);
    UnitsWithSlope(act, p, k, x, jk);
    UnitsWithBend(act, p, k, x, jk);
    UnitsWithPartial(act, p, k, x, jk, 0, 1);
    UnitsWithPartial(act, p, k, x, jk, 0, 2);
    UnitsWithPartial(act, p, k, x, jk, 1, 1);
    UnitsWithPartial(act, p, k, x, jk, 1, 2);
    UnitsWithPartial(act, p, k, x, jk, 2, 1);
    UnitsWithPartial(act, p, k, x, jk, 2, 2);
  }

  /** The network output as a jet: its value and x-derivatives are N, Nx and
      Nxx, and its parameter partials are the hand-written partials of unit
      k, whichever family is varied. This is the independent check of the
      derivative formulas the ODE solvers use. */
  lemma NetJetDerivatives(act: Sigmoid, p: Params, fam: Family, k: nat, x: real)
    requires p.Valid() && k < |p.v|
    ensures HasValues(NetJet(act, p, fam, k, x), Contribution(N(act, p, x), Nx(act, p, x), Nxx(act, p, x)))
    ensures Carries(NetJet(act, p, fam, k, x), UnitPartials(act, p, fam, k, x))
  {
    ClosedJetDerivatives(act, p, fam, k, x);
    UnitsWithDerivatives(act, p, k, x, UnitClosedJet(act, p, fam, k, x));
  }
}
