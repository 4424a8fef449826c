/** The two-input network of the PDE solver (nnpde2bvp.py): hidden unit k has
    input weights wx[k] and wy[k], bias u[k] and output weight v[k], and the
    output at the point (x, y) is
    N = sum over k of v[k] * sigma(u[k] + wx[k]*x + wy[k]*y).

    The solver differentiates along one axis at a time. Along an axis, with
    the other coordinate held, the network is a one-input network whose bias
    absorbs the held coordinate (Slice), so the one-input partials and their
    jet check carry over. */
module Network2 {
  import opened Sums
  import opened Jets
  import opened Activation
  import opened Sensitivity
  import opened UnitJets
  import Network1

  /** The two coordinate axes. */
  datatype Axis = AxisX | AxisY

  /** The other axis. */
  function Other(j: Axis): (o: Axis)
    ensures o != j
  {
    match j
    case AxisX => AxisY
    case AxisY => AxisX
  }

  /** A pair of reals indexed by axis: a point of the plane, or the
      components of a gradient. */
  datatype Pair = Pair(x: real, y: real)
  {
    function At(j: Axis): real
    {
      match j
      case AxisX => x
      case AxisY => y
    }
  }

  /** One parameter snapshot; the four arrays have one entry per hidden unit. */
  datatype Params = Params(v: seq<real>, u: seq<real>, wx: seq<real>, wy: seq<real>)
  {
    /** The four arrays agree in length: one entry per hidden unit. */
    predicate Valid()
    {
      |u| == |v| && |wx| == |v| && |wy| == |v|
    }

    /** The input weight of unit k along axis j. */
    function W(j: Axis, k: nat): real
      requires Valid() && k < |v|
    {
      match j
      case AxisX => wx[k]
      case AxisY => wy[k]
    }
  }

  /** Net input of hidden unit k at the point pt. */
  function Z(p: Params, k: nat, pt: Pair): real
    requires p.Valid() && k < |p.v|
  {
    p.u[k] + p.wx[k] * pt.x + p.wy[k] * pt.y
  }

  /** Contribution of unit k to N and to its first and second derivatives
      along axis j. */
  function UnitN(act: Sigmoid, p: Params, k: nat, pt: Pair): real
    requires p.Valid() && k < |p.v|
  {
    p.v[k] * act.s0(Z(p, k, pt))
  }

  function UnitNx(act: Sigmoid, p: Params, k: nat, pt: Pair, j: Axis): real
    requires p.Valid() && k < |p.v|
  {
    p.v[k] * (act.s1(Z(p, k, pt)) * p.W(j, k))
  }

  function UnitNxx(act: Sigmoid, p: Params, k: nat, pt: Pair, j: Axis): real
    requires p.Valid() && k < |p.v|
  {
    p.v[k] * (act.s2(Z(p, k, pt)) * p.W(j, k) * p.W(j, k))
  }

  /** The network output at pt, and its first two derivatives along axis j. */
  function N(act: Sigmoid, p: Params, pt: Pair): real
    requires p.Valid()
  {
    Sum(seq(|p.v|, k requires 0 <= k < |p.v| => UnitN(act, p, k, pt)))
  }

  function Nx(act: Sigmoid, p: Params, pt: Pair, j: Axis): real
    requires p.Valid()
  {
    Sum(seq(|p.v|, k requires 0 <= k < |p.v| => UnitNx(act, p, k, pt, j)))
  }

  function Nxx(act: Sigmoid, p: Params, pt: Pair, j: Axis): real
    requires p.Valid()
  {
    Sum(seq(|p.v|, k requires 0 <= k < |p.v| => UnitNxx(act, p, k, pt, j)))
  }

  /** The partials of unit k at pt along its parameter of family `fam`,
      differentiated along axis j; for family W the parameter is the input
      weight along the same axis j. Only the first parameter partials (dp,
      dpx, dpxx) are used by gradient descent. */
  function UnitPartials(act: Sigmoid, p: Params, fam: Family, k: nat, pt: Pair, j: Axis): Partials
    requires p.Valid() && k < |p.v|
  {
    var z := Z(p, k, pt);
    FamilyPartials(fam, act.s0(z), act.s1(z), act.s2(z), act.s3(z), act.s4(z), p.v[k], p.W(j, k), pt.At(j))
  }

  /** The chain rule through the net input along axis j: each partial along
      the input weight of that axis is the coordinate times the matching bias
      partial, plus the product-rule terms of its x-derivatives. */
  lemma WeightChainRule(act: Sigmoid, p: Params, k: nat, pt: Pair, j: Axis)
    requires p.Valid() && k < |p.v|
    ensures WeightChain(UnitPartials(act, p, W, k, pt, j), UnitPartials(act, p, U, k, pt, j), pt.At(j))
  {
    var z := Z(p, k, pt);
    FamilyChainRule(act.s0(z), act.s1(z), act.s2(z), act.s3(z), act.s4(z), p.v[k], p.W(j, k), pt.At(j));
  }

  /** The output is homogeneous of degree one in v[k]: unit k's contributions
      are v[k] times their v-partials. */
  lemma OutputWeightLinear(act: Sigmoid, p: Params, k: nat, pt: Pair, j: Axis)
    requires p.Valid() && k < |p.v|
    ensures UnitN(act, p, k, pt) == p.v[k] * UnitPartials(act, p, V, k, pt, j).dp
    ensures UnitNx(act, p, k, pt, j) == p.v[k] * UnitPartials(act, p, V, k, pt, j).dpx
    ensures UnitNxx(act, p, k, pt, j) == p.v[k] * UnitPartials(act, p, V, k, pt, j).dpxx
  {
    var z := Z(p, k, pt);
    FamilyOutputLinear(act.s0(z), act.s1(z), act.s2(z), act.s3(z), act.s4(z), p.v[k], p.W(j, k), pt.At(j));
  }

  lemma ValueLinearInV(act: Sigmoid, p: Params, pt: Pair, j: Axis)
    requires p.Valid()
    ensures N(act, p, pt) == Sum(seq(|p.v|, k requires 0 <= k < |p.v| => p.v[k] * UnitPartials(act, p, V, k, pt, j).dp))
  {
    var n := seq(|p.v|, k requires 0 <= k < |p.v| => UnitN(act, p, k, pt));
    var a := seq(|p.v|, k requires 0 <= k < |p.v| => p.v[k] * UnitPartials(act, p, V, k, pt, j).dp);
    forall k | 0 <= k < |p.v|
      ensures a[k] == n[k]
    {
      OutputWeightLinear(act, p, k, pt, j);
    }
    SumCongruent(n, a);
  }

  lemma SlopeLinearInV(act: Sigmoid, p: Params, pt: Pair, j: Axis)
    requires p.Valid()
    ensures Nx(act, p, pt, j) == Sum(seq(|p.v|, k requires 0 <= k < |p.v| => p.v[k] * UnitPartials(act, p, V, k, pt, j).dpx))
  {
    var n := seq(|p.v|, k requires 0 <= k < |p.v| => UnitNx(act, p, k, pt, j));
    var a := seq(|p.v|, k requires 0 <= k < |p.v| => p.v[k] * UnitPartials(act, p, V, k, pt, j).dpx);
    forall k | 0 <= k < |p.v|
      ensures a[k] == n[k]
    {
      OutputWeightLinear(act, p, k, pt, j);
    }
    SumCongruent(n, a);
  }

  lemma BendLinearInV(act: Sigmoid, p: Params, pt: Pair, j: Axis)
    requires p.Valid()
    ensures Nxx(act, p, pt, j) == Sum(seq(|p.v|, k requires 0 <= k < |p.v| => p.v[k] * UnitPartials(act, p, V, k, pt, j).dpxx))
  {
    var n := seq(|p.v|, k requires 0 <= k < |p.v| => UnitNxx(act, p, k, pt, j));
    var a := seq(|p.v|, k requires 0 <= k < |p.v| => p.v[k] * UnitPartials(act, p, V, k, pt, j).dpxx);
    forall k | 0 <= k < |p.v|
      ensures a[k] == n[k]
    {
      OutputWeightLinear(act, p, k, pt, j);
    }
    SumCongruent(n, a);
  }

  /** Summed over the units, N and its derivatives along axis j are the sums
      of v[k] times their v-partials. */
  lemma NetworkLinearInV(act: Sigmoid, p: Params, pt: Pair, j: Axis)
    requires p.Valid()
    ensures N(act, p, pt) == Sum(seq(|p.v|, k requires 0 <= k < |p.v| => p.v[k] * UnitPartials(act, p, V, k, pt, j).dp))
    ensures Nx(act, p, pt, j) == Sum(seq(|p.v|, k requires 0 <= k < |p.v| => p.v[k] * UnitPartials(act, p, V, k, pt, j).dpx))
    ensures Nxx(act, p, pt, j) == Sum(seq(|p.v|, k requires 0 <= k < |p.v| => p.v[k] * UnitPartials(act, p, V, k, pt, j).dpxx))
  {
    ValueLinearInV(act, p, pt, j);
    SlopeLinearInV(act, p, pt, j);
    BendLinearInV(act, p, pt, j);
  }

  /** The one-input network seen along axis j through pt: the same output
      weights, the input weights of axis j, and biases that absorb the held
      coordinate of the other axis. */
  function Slice(p: Params, pt: Pair, j: Axis): (s: Network1.Params)
    requires p.Valid()
    ensures s.Valid() && |s.v| == |p.v|
  {
    Network1.Params(p.v, seq(|p.v|, k requires 0 <= k < |p.v| => p.u[k] + p.W(Other(j), k) * pt.At(Other(j))),
                    seq(|p.v|, k requires 0 <= k < |p.v| => p.W(j, k)))
  }

  /** Unit k of the slice has the net input of unit k of the network. */
  lemma SliceInput(p: Params, k: nat, pt: Pair, j: Axis)
    requires p.Valid() && k < |p.v|
    ensures Network1.Z(Slice(p, pt, j), k, pt.At(j)) == Z(p, k, pt)
    ensures Slice(p, pt, j).w[k] == p.W(j, k) && Slice(p, pt, j).v[k] == p.v[k]
  {
  }

  /** Unit k of the slice contributes what unit k of the network does, and
      has the same partials along each family. */
  lemma SliceUnit(act: Sigmoid, p: Params, fam: Family, k: nat, pt: Pair, j: Axis)
    requires p.Valid() && k < |p.v|
    ensures Network1.UnitN(act, Slice(p, pt, j), k, pt.At(j)) == UnitN(act, p, k, pt)
    ensures Network1.UnitNx(act, Slice(p, pt, j), k, pt.At(j)) == UnitNx(act, p, k, pt, j)
    ensures Network1.UnitNxx(act, Slice(p, pt, j), k, pt.At(j)) == UnitNxx(act, p, k, pt, j)
    ensures Network1.UnitPartials(act, Slice(p, pt, j), fam, k, pt.At(j)) == UnitPartials(act, p, fam, k, pt, j)
  {
    SliceInput(p, k, pt, j);
  }

  /** Along axis j the network is its slice: same output and derivatives. */
  lemma SliceNetwork(act: Sigmoid, p: Params, pt: Pair, j: Axis)
    requires p.Valid()
    ensures Network1.N(act, Slice(p, pt, j), pt.At(j)) == N(act, p, pt)
    ensures Network1.Nx(act, Slice(p, pt, j), pt.At(j)) == Nx(act, p, pt, j)
    ensures Network1.Nxx(act, Slice(p, pt, j), pt.At(j)) == Nxx(act, p, pt, j)
  {
    var s := Slice(p, pt, j);
    var x := pt.At(j);
    forall k | 0 <= k < |p.v|
      ensures Network1.UnitN(act, s, k, x) == UnitN(act, p, k, pt)
      ensures Network1.UnitNx(act, s, k, x) == UnitNx(act, p, k, pt, j)
      ensures Network1.UnitNxx(act, s, k, x) == UnitNxx(act, p, k, pt, j)
    {
      SliceUnit(act, p, V, k, pt, j);
    }
    SumCongruent(seq(|p.v|, k requires 0 <= k < |p.v| => UnitN(act, p, k, pt)),
                 seq(|s.v|, k requires 0 <= k < |s.v| => Network1.UnitN(act, s, k, x)));
    SumCongruent(seq(|p.v|, k requires 0 <= k < |p.v| => UnitNx(act, p, k, pt, j)),
                 seq(|s.v|, k requires 0 <= k < |s.v| => Network1.UnitNx(act, s, k, x)));
    SumCongruent(seq(|p.v|, k requires 0 <= k < |p.v| => UnitNxx(act, p, k, pt, j)),
                 seq(|s.v|, k requires 0 <= k < |s.v| => Network1.UnitNxx(act, s, k, x)));
  }

  /** The network as a jet along axis j and parameter k of family `fam`. */
  function AxisJet(act: Sigmoid, p: Params, fam: Family, k: nat, pt: Pair, j: Axis): Jet
    requires p.Valid() && k < |p.v|
  {
    NetJet(act, Slice(p, pt, j), fam, k, pt.At(j))
  }

  /** The hand-written partials of the two-input network along axis j agree
      with the derivatives of its jet, built by the jet operations alone. */
  lemma AxisJetDerivatives(act: Sigmoid, p: Params, fam: Family, k: nat, pt: Pair, j: Axis)
    requires p.Valid() && k < |p.v|
    ensures HasValues(AxisJet(act, p, fam, k, pt, j), Contribution(N(act, p, pt), Nx(act, p, pt, j), Nxx(act, p, pt, j)))
    ensures Carries(AxisJet(act, p, fam, k, pt, j), UnitPartials(act, p, fam, k, pt, j))
  {
    NetJetDerivatives(act, Slice(p, pt, j), fam, k, pt.At(j));
    SliceNetwork(act, p, pt, j);
    SliceUnit(act, p, fam, k, pt, j);
  }

  /** The snapshot with the input weight of unit k along axis j moved by h. */
  function MoveWeight(p: Params, j: Axis, k: nat, h: real): (q: Params)
    requires p.Valid() && k < |p.v|
    ensures q.Valid() && |q.v| == |p.v| && q.v == p.v && q.u == p.u
    ensures q.W(j, k) == p.W(j, k) + h && q.W(Other(j), k) == p.W(Other(j), k)
    ensures forall m :: 0 <= m < |p.v| && m != k ==> q.W(j, m) == p.W(j, m)
  {
    match j
    case AxisX => p.(wx := p.wx[k := p.wx[k] + h])
    case AxisY => p.(wy := p.wy[k := p.wy[k] + h])
  }

  /** The one-input snapshot with the bias of unit k moved by d. */
  function MoveBias(s: Network1.Params, k: nat, d: real): (q: Network1.Params)
    requires s.Valid() && k < |s.v|
    ensures q.Valid() && q.v == s.v && q.w == s.w
    ensures q.u[k] == s.u[k] + d
    ensures forall m :: 0 <= m < |s.v| && m != k ==> q.u[m] == s.u[m]
  {
    s.(u := s.u[k := s.u[k] + d])
  }

  /** Along the other axis, the input weight of axis j reaches the network
      only through the slice's bias: moving wj[k] by h is moving the slice
      bias of unit k by h times the coordinate along j. */
  lemma SliceMoveWeight(p: Params, j: Axis, k: nat, h: real, pt: Pair)
    requires p.Valid() && k < |p.v|
    ensures Slice(MoveWeight(p, j, k, h), pt, Other(j)) == MoveBias(Slice(p, pt, Other(j)), k, h * pt.At(j))
  {
    var a := Slice(MoveWeight(p, j, k, h), pt, Other(j));
    var b := MoveBias(Slice(p, pt, Other(j)), k, h * pt.At(j));
    assert Other(Other(j)) == j;
    forall m | 0 <= m < |p.v|
      ensures a.u[m] == b.u[m]
    {
      if m == k {
        var c := pt.At(j);
        assert a.u[k] == p.u[k] + (p.W(j, k) + h) * c;
        assert b.u[k] == p.u[k] + p.W(j, k) * c + h * c;
      }
    }
    assert a.u == b.u;
    assert a.w == b.w;
  }

  /** The network as a jet along axis i while the input weight of unit k
      along the other axis j moves. It is defined as the bias jet along i
      with the parameter stretched by the coordinate along j, which is the
      chain rule through the net input taken as given. Its only link to the
      weight actually moving is SliceMoveWeight, which shows at the level of
      values that moving that weight by h moves the slice's bias by h times
      the coordinate; CrossJetDerivatives rests on that. */
  function CrossJet(act: Sigmoid, p: Params, k: nat, pt: Pair, i: Axis): Jet
    requires p.Valid() && k < |p.v|
  {
    StretchP(pt.At(Other(i)), AxisJet(act, p, U, k, pt, i))
  }

  /** Whether the first parameter partials of jet `j` are c times those in `q`. */
  predicate CarriesScaled(j: Jet, c: real, q: Partials)
  {
    D(j, 0, 1) == c * q.dp && D(j, 1, 1) == c * q.dpx && D(j, 2, 1) == c * q.dpxx
  }

  /** The cross jet has N and its derivatives along i, and its first
      parameter partials are the coordinate along the other axis times the
      bias partials along i. */
  lemma CrossJetDerivatives(act: Sigmoid, p: Params, k: nat, pt: Pair, i: Axis)
    requires p.Valid() && k < |p.v|
    ensures HasValues(CrossJet(act, p, k, pt, i), Contribution(N(act, p, pt), Nx(act, p, pt, i), Nxx(act, p, pt, i)))
    ensures CarriesScaled(CrossJet(act, p, k, pt, i), pt.At(Other(i)), UnitPartials(act, p, U, k, pt, i))
  {
    AxisJetDerivatives(act, p, U, k, pt, i);
    StretchCarries(pt.At(Other(i)), AxisJet(act, p, U, k, pt, i), UnitPartials(act, p, U, k, pt, i),
                   Contribution(N(act, p, pt), Nx(act, p, pt, i), Nxx(act, p, pt, i)));
  }

  /** Stretching the parameter keeps the values and scales the first
      parameter partials. */
  lemma StretchCarries(c: real, a: Jet, q: Partials, n: Contribution)
    requires HasValues(a, n) && Carries(a, q)
    ensures HasValues(StretchP(c, a), n)
    ensures CarriesScaled(StretchP(c, a), c, q)
  {
  }
}
