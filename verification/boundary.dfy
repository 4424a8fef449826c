/** The boundary side of the PDE solver (nnpde2bvp.py) on the unit square:
    the anchor A(x, y) that blends the four Dirichlet edge functions, the
    envelope P(x, y) = x(1 - x)y(1 - y) that vanishes on the boundary, their
    derivatives along each axis, and the trial solution Yt = A + P * N. */
module Boundary {
  import opened Algebra
  import opened Network2

  /** An edge function with its first two derivatives. */
  datatype Edge = Edge(f: real -> real, df: real -> real, d2f: real -> real)

  /** The Dirichlet data: f0 and f1 give Y on the edges x = 0 and x = 1 as
      functions of y, g0 and g1 give Y on the edges y = 0 and y = 1 as
      functions of x. */
  datatype Edges = Edges(f0: Edge, g0: Edge, f1: Edge, g1: Edge)

  /** Whether the edge functions agree at the four corners. */
  predicate CornersAgree(bc: Edges)
  {
    bc.f0.f(0.0) == bc.g0.f(0.0) && bc.f1.f(0.0) == bc.g0.f(1.0)
    && bc.f0.f(1.0) == bc.g1.f(0.0) && bc.f1.f(1.0) == bc.g1.f(1.0)
  }

  /** The anchor A (Af): linear interpolation between the x-edges, plus each
      y-edge's departure from the straight line through its end points. It
      is the x-edge data on x = 0 and x = 1, whatever the corners. */
  function Anchor(pt: Pair, bc: Edges): (a: real)
    ensures pt.x == 0.0 ==> a == bc.f0.f(pt.y)
    ensures pt.x == 1.0 ==> a == bc.f1.f(pt.y)
  {
    var x, y := pt.x, pt.y;
    (1.0 - x) * bc.f0.f(y) + x * bc.f1.f(y)
    + (1.0 - y) * (bc.g0.f(x) - (1.0 - x) * bc.g0.f(0.0) - x * bc.g0.f(1.0))
    + y * (bc.g1.f(x) - (1.0 - x) * bc.g1.f(0.0) - x * bc.g1.f(1.0))
  }

  /** On the edge y = 0 the anchor is g0 everywhere exactly when the corners
      of that edge agree. */
  lemma AnchorBottomEdge(bc: Edges)
    ensures (forall x :: Anchor(Pair(x, 0.0), bc) == bc.g0.f(x))
        <==> bc.f0.f(0.0) == bc.g0.f(0.0) && bc.f1.f(0.0) == bc.g0.f(1.0)
  {
    if forall x :: Anchor(Pair(x, 0.0), bc) == bc.g0.f(x) {
      assert Anchor(Pair(0.0, 0.0), bc) == bc.g0.f(0.0);
      assert Anchor(Pair(1.0, 0.0), bc) == bc.g0.f(1.0);
    }
  }

  /** On the edge y = 1 the anchor is g1 everywhere exactly when the corners
      of that edge agree. */
  lemma AnchorTopEdge(bc: Edges)
    ensures (forall x :: Anchor(Pair(x, 1.0), bc) == bc.g1.f(x))
        <==> bc.f0.f(1.0) == bc.g1.f(0.0) && bc.f1.f(1.0) == bc.g1.f(1.0)
  {
    if forall x :: Anchor(Pair(x, 1.0), bc) == bc.g1.f(x) {
      assert Anchor(Pair(0.0, 1.0), bc) == bc.g1.f(0.0);
      assert Anchor(Pair(1.0, 1.0), bc) == bc.g1.f(1.0);
    }
  }

  /** With agreeing corners the anchor meets the Dirichlet data on all four
      edges. */
  lemma AnchorOnBoundary(bc: Edges, pt: Pair)
    requires CornersAgree(bc)
    ensures pt.x == 0.0 ==> Anchor(pt, bc) == bc.f0.f(pt.y)
    ensures pt.x == 1.0 ==> Anchor(pt, bc) == bc.f1.f(pt.y)
    ensures pt.y == 0.0 ==> Anchor(pt, bc) == bc.g0.f(pt.x)
    ensures pt.y == 1.0 ==> Anchor(pt, bc) == bc.g1.f(pt.x)
  {
    AnchorBottomEdge(bc);
    AnchorTopEdge(bc);
    assert Anchor(Pair(pt.x, 0.0), bc) == bc.g0.f(pt.x);
    assert Anchor(Pair(pt.x, 1.0), bc) == bc.g1.f(pt.x);
  }

  /** dA/dx (dA_dxf). */
  function AnchorDx(pt: Pair, bc: Edges): real
  {
    var x, y := pt.x, pt.y;
    -bc.f0.f(y) + bc.f1.f(y) + (1.0 - y) * (bc.g0.df(x) + bc.g0.f(0.0) - bc.g0.f(1.0))
    + y * (bc.g1.df(x) + bc.g1.f(0.0) - bc.g1.f(1.0))
  }

  /** dA/dy as the derivative of the anchor: the x * g1(1) term enters with
      the sign it has in the anchor. */
  function AnchorDy(pt: Pair, bc: Edges): real
  {
    (1.0 - pt.x) * bc.f0.df(pt.y) + pt.x * bc.f1.df(pt.y) + ChordGaps(bc, pt.x)
  }

  /** How far the edge y = 1 lies above its chord at x, less how far the
      edge y = 0 does: the part of the anchor that is linear in y. */
  function ChordGaps(bc: Edges, x: real): real
  {
    (bc.g1.f(x) - (1.0 - x) * bc.g1.f(0.0) - x * bc.g1.f(1.0))
    - (bc.g0.f(x) - (1.0 - x) * bc.g0.f(0.0) - x * bc.g0.f(1.0))
  }

  /** dA/dy as dA_dyf writes it, with + x * g1(1) where the anchor has
      - x * g1(1). */
  function AnchorDyAsWritten(pt: Pair, bc: Edges): (d: real)
    ensures d == AnchorDy(pt, bc) + 2.0 * pt.x * bc.g1.f(1.0)
  {
    var x, y := pt.x, pt.y;
    (1.0 - x) * bc.f0.df(y) + x * bc.f1.df(y)
    - (bc.g0.f(x) - (1.0 - x) * bc.g0.f(0.0) - x * bc.g0.f(1.0))
    + (bc.g1.f(x) - (1.0 - x) * bc.g1.f(0.0) + x * bc.g1.f(1.0))
  }

  /** d2A/dx2 (d2A_dx2f). */
  function AnchorDxx(pt: Pair, bc: Edges): real
  {
    (1.0 - pt.y) * bc.g0.d2f(pt.x) + pt.y * bc.g1.d2f(pt.x)
  }

  /** d2A/dy2 (d2A_dy2f). */
  function AnchorDyy(pt: Pair, bc: Edges): real
  {
    (1.0 - pt.x) * bc.f0.d2f(pt.y) + pt.x * bc.f1.d2f(pt.y)
  }

  /** Whether an edge function's second-order Taylor expansion at t is exact
      for a step h, as it is for every step when the edge function is a
      polynomial of degree two or less. */
  predicate TaylorExact(e: Edge, t: real, h: real)
  {
    e.f(t + h) == e.f(t) + h * e.df(t) + h * h / 2.0 * e.d2f(t)
  }

  /** The change of an edge function over a step h from t. */
  function Rise(e: Edge, t: real, h: real): real
  {
    e.f(t + h) - e.f(t)
  }

  /** The part of dA/dx that does not depend on x: the x-edges' difference
      and the y-edges' chord slopes, blended along y. */
  function ChordSlopes(bc: Edges, y: real): real
  {
    bc.f1.f(y) - bc.f0.f(y)
    + (1.0 - y) * (bc.g0.f(0.0) - bc.g0.f(1.0)) + y * (bc.g1.f(0.0) - bc.g1.f(1.0))
  }

  /** The change of the anchor over a step h along x, in terms of the
      y-edges' rises. */
  function RiseX(bc: Edges, pt: Pair, h: real): real
  {
    (1.0 - pt.y) * Rise(bc.g0, pt.x, h) + pt.y * Rise(bc.g1, pt.x, h) + h * ChordSlopes(bc, pt.y)
  }

  lemma AnchorDiffX(bc: Edges, pt: Pair, h: real)
    ensures Anchor(Pair(pt.x + h, pt.y), bc) - Anchor(pt, bc) == RiseX(bc, pt, h)
  {
  }

  /** dA/dx blends the y-edges' slopes and adds the chord slopes. */
  lemma AnchorDxBlend(bc: Edges, pt: Pair)
    ensures AnchorDx(pt, bc)
         == (1.0 - pt.y) * bc.g0.df(pt.x) + pt.y * bc.g1.df(pt.x) + ChordSlopes(bc, pt.y)
  {
  }

  /** The change of the anchor over a step h along y, in terms of the
      x-edges' rises: they enter blended, and the y-edges' chord gaps enter
      h times. */
  function RiseY(bc: Edges, pt: Pair, h: real): real
  {
    (1.0 - pt.x) * Rise(bc.f0, pt.y, h) + pt.x * Rise(bc.f1, pt.y, h) + h * ChordGaps(bc, pt.x)
  }

  lemma AnchorDiffY(bc: Edges, pt: Pair, h: real)
    ensures Anchor(Pair(pt.x, pt.y + h), bc) - Anchor(pt, bc) == RiseY(bc, pt, h)
  {
  }

  /** An exact expansion of an edge function is an expansion of its rise. */
  lemma RiseExact(e: Edge, t: real, h: real)
    requires TaylorExact(e, t, h)
    ensures Rise(e, t, h) == h * e.df(t) + h * h / 2.0 * e.d2f(t)
  {
  }

  /** The blend of two exact expansions is the expansion of the blend: if
      s blends the rises c0 and c1 with the extra slope r, and dy and dyy
      blend the first and second derivatives likewise, then s expands with
      dy and dyy. */
  lemma BlendSteps(s: real, dy: real, dyy: real, x: real, h: real,
                   c0: real, c1: real, d0: real, d1: real, e0: real, e1: real, r: real)
    requires s == (1.0 - x) * c0 + x * c1 + h * r
    requires c0 == h * d0 + h * h / 2.0 * e0
    requires c1 == h * d1 + h * h / 2.0 * e1
    requires dy == (1.0 - x) * d0 + x * d1 + r
    requires dyy == (1.0 - x) * e0 + x * e1
    ensures s == h * dy + h * h / 2.0 * dyy
  {
  }

  /** When the x-edges expand exactly, the anchor's change along y is its
      expansion with dA/dy and d2A/dy2. */
  lemma RiseYExact(bc: Edges, pt: Pair, h: real)
    requires TaylorExact(bc.f0, pt.y, h) && TaylorExact(bc.f1, pt.y, h)
    ensures RiseY(bc, pt, h) == h * AnchorDy(pt, bc) + h * h / 2.0 * AnchorDyy(pt, bc)
  {
    RiseExact(bc.f0, pt.y, h);
    RiseExact(bc.f1, pt.y, h);
    BlendSteps(RiseY(bc, pt, h), AnchorDy(pt, bc), AnchorDyy(pt, bc), pt.x, h, Rise(bc.f0, pt.y, h), Rise(bc.f1, pt.y, h),
               bc.f0.df(pt.y), bc.f1.df(pt.y), bc.f0.d2f(pt.y), bc.f1.d2f(pt.y), ChordGaps(bc, pt.x));
  }

  /** When the y-edges expand exactly, the anchor's change along x is its
      expansion with dA/dx and d2A/dx2. */
  lemma RiseXExact(bc: Edges, pt: Pair, h: real)
    requires TaylorExact(bc.g0, pt.x, h) && TaylorExact(bc.g1, pt.x, h)
    ensures RiseX(bc, pt, h) == h * AnchorDx(pt, bc) + h * h / 2.0 * AnchorDxx(pt, bc)
  {
    RiseExact(bc.g0, pt.x, h);
    RiseExact(bc.g1, pt.x, h);
    AnchorDxBlend(bc, pt);
    BlendSteps(RiseX(bc, pt, h), AnchorDx(pt, bc), AnchorDxx(pt, bc), pt.y, h, Rise(bc.g0, pt.x, h), Rise(bc.g1, pt.x, h),
               bc.g0.df(pt.x), bc.g1.df(pt.x), bc.g0.d2f(pt.x), bc.g1.d2f(pt.x), ChordSlopes(bc, pt.y));
  }

  /** The anchor's derivatives along x are exact: when the y-edge functions
      expand exactly, so does the anchor, with dA/dx and d2A/dx2. */
  lemma AnchorTaylorX(bc: Edges, pt: Pair, h: real)
    requires TaylorExact(bc.g0, pt.x, h) && TaylorExact(bc.g1, pt.x, h)
    ensures Anchor(Pair(pt.x + h, pt.y), bc) - Anchor(pt, bc)
         == h * AnchorDx(pt, bc) + h * h / 2.0 * AnchorDxx(pt, bc)
  {
    AnchorDiffX(bc, pt, h);
    RiseXExact(bc, pt, h);
  }

  /** The same along y, with the corrected dA/dy. */
  lemma AnchorTaylorY(bc: Edges, pt: Pair, h: real)
    requires TaylorExact(bc.f0, pt.y, h) && TaylorExact(bc.f1, pt.y, h)
    ensures Anchor(Pair(pt.x, pt.y + h), bc) - Anchor(pt, bc)
         == h * AnchorDy(pt, bc) + h * h / 2.0 * AnchorDyy(pt, bc)
  {
    AnchorDiffY(bc, pt, h);
    RiseYExact(bc, pt, h);
  }

  /** The constant boundary data 1 on every edge. */
  function UnitEdges(): (bc: Edges)
    ensures CornersAgree(bc)
  {
    var one := Edge(t => 1.0, t => 0.0, t => 0.0);
    Edges(one, one, one, one)
  }

  /** With the data 1 on every edge the anchor is 1 everywhere, so its
      y-derivative is zero; the corrected dA/dy says so, but dA_dyf as
      written gives 1 at (1/2, 1/2), and so does not expand the anchor. */
  lemma AnchorDyCounterexample()
    ensures forall pt: Pair {:trigger Anchor(pt, UnitEdges())} :: Anchor(pt, UnitEdges()) == 1.0
    ensures TaylorExact(UnitEdges().f0, 0.5, 1.0) && TaylorExact(UnitEdges().f1, 0.5, 1.0)
    ensures Anchor(Pair(0.5, 1.5), UnitEdges()) - Anchor(Pair(0.5, 0.5), UnitEdges()) == 0.0
    ensures AnchorDy(Pair(0.5, 0.5), UnitEdges()) == 0.0
    ensures AnchorDyAsWritten(Pair(0.5, 0.5), UnitEdges()) == 1.0
  {
  }

  /** The one-dimensional factor t(1 - t) of the envelope, zero exactly at
      t = 0 and t = 1. */
  function Bump(t: real): (b: real)
    ensures b == 0.0 <==> t == 0.0 || t == 1.0
  {
    if t != 0.0 && t != 1.0 then
      NonzeroProduct(t, 1.0 - t);
      t * (1.0 - t)
    else
      t * (1.0 - t)
  }

  /** The factor is quadratic: a step h changes it by h(1 - 2t) - h^2. */
  lemma BumpStep(t: real, h: real)
    ensures Bump(t + h) == Bump(t) + h * (1.0 - 2.0 * t) - h * h
  {
  }

  /** Strictly between 0 and 1 the factor is positive. */
  lemma BumpPositive(t: real)
    requires 0.0 < t < 1.0
    ensures Bump(t) > 0.0
  {
    PositiveProduct(t, 1.0 - t);
  }

  /** The envelope P = x(1 - x)y(1 - y) (Pf), grouped as the product of the
      two one-dimensional factors: zero exactly on the four lines that carry
      the edges of the unit square. */
  function Envelope(pt: Pair): (e: real)
    ensures e == 0.0 <==> pt.x == 0.0 || pt.x == 1.0 || pt.y == 0.0 || pt.y == 1.0
  {
    if Bump(pt.x) != 0.0 && Bump(pt.y) != 0.0 then
      NonzeroProduct(Bump(pt.x), Bump(pt.y));
      Bump(pt.x) * Bump(pt.y)
    else
      Bump(pt.x) * Bump(pt.y)
  }

  /** dP/dx, dP/dy, d2P/dx2 and d2P/dy2, grouped likewise. */
  function EnvelopeDx(pt: Pair): real
  {
    (1.0 - 2.0 * pt.x) * Bump(pt.y)
  }

  function EnvelopeDy(pt: Pair): real
  {
    Bump(pt.x) * (1.0 - 2.0 * pt.y)
  }

  function EnvelopeDxx(pt: Pair): real
  {
    -2.0 * Bump(pt.y)
  }

  function EnvelopeDyy(pt: Pair): real
  {
    -2.0 * Bump(pt.x)
  }

  /** The envelope is quadratic along each axis, so its first two
      derivatives expand it exactly. */
  lemma EnvelopeTaylorX(pt: Pair, h: real)
    ensures Envelope(Pair(pt.x + h, pt.y)) - Envelope(pt) == h * EnvelopeDx(pt) + h * h / 2.0 * EnvelopeDxx(pt)
  {
    BumpStep(pt.x, h);
  }

  lemma EnvelopeTaylorY(pt: Pair, h: real)
    ensures Envelope(Pair(pt.x, pt.y + h)) - Envelope(pt) == h * EnvelopeDy(pt) + h * h / 2.0 * EnvelopeDyy(pt)
  {
    BumpStep(pt.y, h);
  }

  /** The anchor's and the envelope's derivatives along axis j. */
  function AnchorD(pt: Pair, bc: Edges, j: Axis): real
  {
    match j
    case AxisX => AnchorDx(pt, bc)
    case AxisY => AnchorDy(pt, bc)
  }

  function AnchorDD(pt: Pair, bc: Edges, j: Axis): real
  {
    match j
    case AxisX => AnchorDxx(pt, bc)
    case AxisY => AnchorDyy(pt, bc)
  }

  function EnvelopeD(pt: Pair, j: Axis): real
  {
    match j
    case AxisX => EnvelopeDx(pt)
    case AxisY => EnvelopeDy(pt)
  }

  function EnvelopeDD(pt: Pair, j: Axis): real
  {
    match j
    case AxisX => EnvelopeDxx(pt)
    case AxisY => EnvelopeDyy(pt)
  }

  /** The trial solution Yt = A + P * N (Ytf). On the boundary of the unit
      square it is the anchor whatever the network output n is, and so, with
      agreeing corners, the Dirichlet data. */
  function TrialValue(pt: Pair, n: real, bc: Edges): (yt: real)
    ensures pt.x == 0.0 || pt.x == 1.0 || pt.y == 0.0 || pt.y == 1.0 ==> yt == Anchor(pt, bc)
  {
    Anchor(pt, bc) + Envelope(pt) * n
  }
}
