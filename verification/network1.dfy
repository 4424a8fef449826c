/** The single-input network shared by the two ODE solvers (nnode1.py and
    nnode2ivp.py): hidden unit k has input weight w[k], bias u[k] and output
    weight v[k], and the output is N(x) = sum over k of v[k] * sigma(w[k]*x + u[k]). */
module Network1 {
  import opened Sums
  import opened Activation
  import opened Errors
  import opened Sensitivity

  /** The outcome of training: a value, or the index of the first epoch whose
      diagonal Newton step would divide by a zero second partial. */
  datatype Result<R> = Success(value: R) | SingularCurvature(epoch: nat)

  /** One parameter snapshot; the three arrays have one entry per hidden unit. */
  datatype Params = Params(v: seq<real>, u: seq<real>, w: seq<real>)
  {
    /** The three arrays agree in length: one entry per hidden unit. */
    predicate Valid()
    {
      |u| == |v| && |w| == |v|
    }
  }

  /** Net input of hidden unit k at x. */
  function Z(p: Params, k: nat, x: real): real
    requires p.Valid() && k < |p.v|
  {
    p.w[k] * x + p.u[k]
  }

  /** Contribution of unit k to N, dN/dx and d2N/dx2: v[k] times the
      activation and its x-derivatives sigma'(z)*w[k] and sigma''(z)*w[k]^2. */
  function UnitN(act: Sigmoid, p: Params, k: nat, x: real): real
    requires p.Valid() && k < |p.v|
  {
    p.v[k] * act.s0(Z(p, k, x))
  }

  function UnitNx(act: Sigmoid, p: Params, k: nat, x: real): real
    requires p.Valid() && k < |p.v|
  {
    p.v[k] * (act.s1(Z(p, k, x)) * p.w[k])
  }

  function UnitNxx(act: Sigmoid, p: Params, k: nat, x: real): real
    requires p.Valid() && k < |p.v|
  {
    p.v[k] * (act.s2(Z(p, k, x)) * p.w[k] * p.w[k])
  }

  /** The network output and its first two x-derivatives at x. */
  function N(act: Sigmoid, p: Params, x: real): real
    requires p.Valid()
  {
    Sum(seq(|p.v|, k requires 0 <= k < |p.v| => UnitN(act, p, k, x)))
  }

  function Nx(act: Sigmoid, p: Params, x: real): real
    requires p.Valid()
  {
    Sum(seq(|p.v|, k requires 0 <= k < |p.v| => UnitNx(act, p, k, x)))
  }

  function Nxx(act: Sigmoid, p: Params, x: real): real
    requires p.Valid()
  {
    Sum(seq(|p.v|, k requires 0 <= k < |p.v| => UnitNxx(act, p, k, x)))
  }

  /** The partials of unit k at x along its parameter of family `fam`. */
  function UnitPartials(act: Sigmoid, p: Params, fam: Family, k: nat, x: real): Partials
    requires p.Valid() && k < |p.v|
  {
    var z := Z(p, k, x);
    FamilyPartials(fam, act.s0(z), act.s1(z), act.s2(z), act.s3(z), act.s4(z), p.v[k], p.w[k], x)
  }

  /** The chain rule for unit k: dN/dw[k] = x * dN/du[k], and likewise for
      the x-derivatives and second partials the solvers use. */
  lemma WeightChainRule(act: Sigmoid, p: Params, k: nat, x: real)
    requires p.Valid() && k < |p.v|
    ensures WeightChain(UnitPartials(act, p, W, k, x), UnitPartials(act, p, U, k, x), x)
  {
    var z := Z(p, k, x);
    FamilyChainRule(act.s0(z), act.s1(z), act.s2(z), act.s3(z), act.s4(z), p.v[k], p.w[k], x);
  }

  /** The output is homogeneous of degree one in v[k]: unit k's contributions
      to N and its x-derivatives are v[k] times their v-partials, and every
      second v-partial is zero. */
  lemma OutputWeightLinear(act: Sigmoid, p: Params, k: nat, x: real)
    requires p.Valid() && k < |p.v|
    ensures UnitN(act, p, k, x) == p.v[k] * UnitPartials(act, p, V, k, x).dp
    ensures UnitNx(act, p, k, x) == p.v[k] * UnitPartials(act, p, V, k, x).dpx
    ensures UnitNxx(act, p, k, x) == p.v[k] * UnitPartials(act, p, V, k, x).dpxx
    ensures UnitPartials(act, p, V, k, x).dpp == 0.0
    ensures UnitPartials(act, p, V, k, x).dppx == 0.0
    ensures UnitPartials(act, p, V, k, x).dppxx == 0.0
  {
    var z := Z(p, k, x);
    Sensitivity.FamilyOutputLinear(act.s0(z), act.s1(z), act.s2(z), act.s3(z), act.s4(z), p.v[k], p.w[k], x);
  }

  /** Whether no second partial of the error is zero, so that a diagonal
      Newton step is defined. */
  predicate NonzeroCurvature(c: Params)
  {
    (forall j :: 0 <= j < |c.v| ==> c.v[j] != 0.0)
    && (forall j :: 0 <= j < |c.u| ==> c.u[j] != 0.0)
    && (forall j :: 0 <= j < |c.w| ==> c.w[j] != 0.0)
  }

  /** Whether every first partial of the error is zero. */
  predicate ZeroGradient(g: Params)
  {
    AllZero(g.v) && AllZero(g.u) && AllZero(g.w)
  }

  /** The diagonal Newton update of every parameter, each from the same
      snapshot `p` with its own first and second error partials in `g` and `c`.
      With a non-zero rate a parameter moves exactly when its gradient is
      non-zero, and a snapshot with zero gradient is a fixed point. */
  function NewtonUpdate(p: Params, g: Params, c: Params, eta: real): (q: Params)
    requires p.Valid() && |g.v| == |g.u| == |g.w| == |c.v| == |c.u| == |c.w| == |p.v|
    requires NonzeroCurvature(c)
    ensures q.Valid() && |q.v| == |p.v|
    ensures eta != 0.0 ==> forall j :: 0 <= j < |p.v| ==>
      (q.v[j] == p.v[j] <==> g.v[j] == 0.0) && (q.u[j] == p.u[j] <==> g.u[j] == 0.0)
      && (q.w[j] == p.w[j] <==> g.w[j] == 0.0)
    ensures ZeroGradient(g) ==> q == p
  {
    Params(NewtonStep(p.v, g.v, c.v, eta), NewtonStep(p.u, g.u, c.u, eta), NewtonStep(p.w, g.w, c.w, eta))
  }

  /** The snapshot with v[k] moved by h. */
  function MoveV(p: Params, k: nat, h: real): (q: Params)
    requires p.Valid() && k < |p.v|
    ensures q.Valid() && q.u == p.u && q.w == p.w
    ensures q.v[k] == p.v[k] + h
    ensures forall j :: 0 <= j < |p.v| && j != k ==> q.v[j] == p.v[j]
  {
    p.(v := p.v[k := p.v[k] + h])
  }

  /** The network and its x-derivatives are affine in each output weight:
      moving v[k] by h moves them by h times sigma(z_k), sigma'(z_k)*w[k] and
      sigma''(z_k)*w[k]^2 exactly. These coefficients are the v-partials of
      the three quantities. */
  lemma AffineInV(act: Sigmoid, p: Params, k: nat, h: real, x: real)
    requires p.Valid() && k < |p.v|
    ensures N(act, MoveV(p, k, h), x) == N(act, p, x) + h * act.s0(Z(p, k, x))
    ensures Nx(act, MoveV(p, k, h), x) == Nx(act, p, x) + h * (act.s1(Z(p, k, x)) * p.w[k])
    ensures Nxx(act, MoveV(p, k, h), x) == Nxx(act, p, x) + h * (act.s2(Z(p, k, x)) * p.w[k] * p.w[k])
  {
    AffineInVN(act, p, k, h, x);
    AffineInVNx(act, p, k, h, x);
    AffineInVNxx(act, p, k, h, x);
  }

  lemma AffineInVN(act: Sigmoid, p: Params, k: nat, h: real, x: real)
    requires p.Valid() && k < |p.v|
    ensures N(act, MoveV(p, k, h), x) == N(act, p, x) + h * act.s0(Z(p, k, x))
  {
    var q := MoveV(p, k, h);
    var a := seq(|p.v|, j requires 0 <= j < |p.v| => UnitN(act, p, j, x));
    var c := seq(|q.v|, j requires 0 <= j < |q.v| => UnitN(act, q, j, x));
    forall j | 0 <= j < |p.v| && j != k ensures c[j] == a[j] {
      assert Z(q, j, x) == Z(p, j, x);
    }
    assert Z(q, k, x) == Z(p, k, x);
    SumBump(a, c, k, h * act.s0(Z(p, k, x)));
  }

  lemma AffineInVNx(act: Sigmoid, p: Params, k: nat, h: real, x: real)
    requires p.Valid() && k < |p.v|
    ensures Nx(act, MoveV(p, k, h), x) == Nx(act, p, x) + h * (act.s1(Z(p, k, x)) * p.w[k])
  {
    var q := MoveV(p, k, h);
    var a := seq(|p.v|, j requires 0 <= j < |p.v| => UnitNx(act, p, j, x));
    var c := seq(|q.v|, j requires 0 <= j < |q.v| => UnitNx(act, q, j, x));
    forall j | 0 <= j < |p.v| && j != k ensures c[j] == a[j] {
      assert Z(q, j, x) == Z(p, j, x);
    }
    assert Z(q, k, x) == Z(p, k, x);
    SumBump(a, c, k, h * (act.s1(Z(p, k, x)) * p.w[k]));
  }

  lemma AffineInVNxx(act: Sigmoid, p: Params, k: nat, h: real, x: real)
    requires p.Valid() && k < |p.v|
    ensures Nxx(act, MoveV(p, k, h), x) == Nxx(act, p, x) + h * (act.s2(Z(p, k, x)) * p.w[k] * p.w[k])
  {
    var q := MoveV(p, k, h);
    var a := seq(|p.v|, j requires 0 <= j < |p.v| => UnitNxx(act, p, j, x));
    var c := seq(|q.v|, j requires 0 <= j < |q.v| => UnitNxx(act, q, j, x));
    forall j | 0 <= j < |p.v| && j != k ensures c[j] == a[j] {
      assert Z(q, j, x) == Z(p, j, x);
    }
    assert Z(q, k, x) == Z(p, k, x);
    SumBump(a, c, k, h * (act.s2(Z(p, k, x)) * p.w[k] * p.w[k]));
  }

  /** Summed over the units, N and its x-derivatives are the sums of v[k]
      times their v-partials. */
  lemma NetworkLinearInV(act: Sigmoid, p: Params, x: real)
    requires p.Valid()
    ensures N(act, p, x) == Sum(seq(|p.v|, k requires 0 <= k < |p.v| => p.v[k] * UnitPartials(act, p, V, k, x).dp))
    ensures Nx(act, p, x) == Sum(seq(|p.v|, k requires 0 <= k < |p.v| => p.v[k] * UnitPartials(act, p, V, k, x).dpx))
    ensures Nxx(act, p, x) == Sum(seq(|p.v|, k requires 0 <= k < |p.v| => p.v[k] * UnitPartials(act, p, V, k, x).dpxx))
  {
    ValueLinearInV(act, p, x);
    SlopeLinearInV(act, p, x);
    BendLinearInV(act, p, x);
  }

  lemma ValueLinearInV(act: Sigmoid, p: Params, x: real)
    requires p.Valid()
    ensures N(act, p, x) == Sum(seq(|p.v|, k requires 0 <= k < |p.v| => p.v[k] * UnitPartials(act, p, V, k, x).dp))
  {
    var n := seq(|p.v|, k requires 0 <= k < |p.v| => UnitN(act, p, k, x));
    var a := seq(|p.v|, k requires 0 <= k < |p.v| => p.v[k] * UnitPartials(act, p, V, k, x).dp);
    forall k | 0 <= k < |p.v|
      ensures a[k] == n[k]
    {
      OutputWeightLinear(act, p, k, x);
    }
    SumCongruent(n, a);
  }

  lemma SlopeLinearInV(act: Sigmoid, p: Params, x: real)
    requires p.Valid()
    ensures Nx(act, p, x) == Sum(seq(|p.v|, k requires 0 <= k < |p.v| => p.v[k] * UnitPartials(act, p, V, k, x).dpx))
  {
    var n := seq(|p.v|, k requires 0 <= k < |p.v| => UnitNx(act, p, k, x));
    var a := seq(|p.v|, k requires 0 <= k < |p.v| => p.v[k] * UnitPartials(act, p, V, k, x).dpx);
    forall k | 0 <= k < |p.v|
      ensures a[k] == n[k]
    {
      OutputWeightLinear(act, p, k, x);
    }
    SumCongruent(n, a);
  }

  lemma BendLinearInV(act: Sigmoid, p: Params, x: real)
    requires p.Valid()
    ensures Nxx(act, p, x) == Sum(seq(|p.v|, k requires 0 <= k < |p.v| => p.v[k] * UnitPartials(act, p, V, k, x).dpxx))
  {
    var n := seq(|p.v|, k requires 0 <= k < |p.v| => UnitNxx(act, p, k, x));
    var a := seq(|p.v|, k requires 0 <= k < |p.v| => p.v[k] * UnitPartials(act, p, V, k, x).dpxx);
    forall k | 0 <= k < |p.v|
      ensures a[k] == n[k]
    {
      OutputWeightLinear(act, p, k, x);
    }
    SumCongruent(n, a);
  }
}
