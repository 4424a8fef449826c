/** The parameter partials of one hidden unit's output, as the two ODE solvers
    write them out by hand (nnode1.py and nnode2ivp.py), and the chain rule that
    relates the input-weight partials to the bias partials. Everything here is
    stated over the unit's scalars: the activation derivatives s0 to s4 at the
    unit's net input, its output weight v, its input weight w and the point x. */
module Sensitivity {
  import opened Algebra

  /** The three parameter families of a hidden unit. */
  datatype Family = V | U | W

  /** The six partials of one unit's output that the solvers use, along one
      parameter p of the unit: dN/dp, d2N/dp2, and their first and second
      x-derivatives. */
  datatype Partials = Partials(dp: real, dpp: real, dpx: real, dppx: real, dpxx: real, dppxx: real)

  /** One unit's terms of N, dN/dx and d2N/dx2. */
  datatype Contribution = Contribution(n: real, nx: real, nxx: real)

  /** The terms of a unit with output weight v and input weight w whose
      activation has derivatives s0, s1, s2 at its net input. */
  function UnitContribution(v: real, s0: real, s1: real, s2: real, w: real): Contribution
  {
    Contribution(v * s0, v * (s1 * w), v * (s2 * w * w))
  }

  /** Every partial multiplied by k. */
  function ScalePartials(k: real, q: Partials): Partials
  {
    Partials(k * q.dp, k * q.dpp, k * q.dpx, k * q.dppx, k * q.dpxx, k * q.dppxx)
  }

  /** Along the output weight v: the output is linear in v, so every second
      partial is zero. */
  function PartialsV(s0: real, s1: real, s2: real, w: real): Partials
  {
    Partials(s0, 0.0, s1 * w, 0.0, s2 * w * w, 0.0)
  }

  /** Along the bias u, each partial without its common factor v. */
  function BiasFactors(s1: real, s2: real, s3: real, s4: real, w: real): Partials
  {
    Partials(s1, s2, s2 * w, s3 * w, s3 * w * w, s4 * w * w)
  }

  /** Along the input weight w, each partial without its common factor v,
      grouped as the solvers group it. */
  function WeightFactors(s1: real, s2: real, s3: real, s4: real, w: real, x: real): Partials
  {
    Partials(s1 * x,
             s2 * x * x,
             s1 + s2 * w * x,
             s2 * x + (s2 + s3 * w * x) * x,
             2.0 * s2 * w + s3 * w * w * x,
             2.0 * s2 + 2.0 * s3 * x * w + (s3 * 2.0 * w + s4 * w * w * x) * x)
  }

  /** The partials along the parameter of family `fam`. */
  function FamilyPartials(fam: Family, s0: real, s1: real, s2: real, s3: real, s4: real,
                          v: real, w: real, x: real): Partials
  {
    match fam
    case V => PartialsV(s0, s1, s2, w)
    case U => ScalePartials(v, BiasFactors(s1, s2, s3, s4, w))
    case W => ScalePartials(v, WeightFactors(s1, s2, s3, s4, w, x))
  }

  /** The chain rule through the net input w*x + u, which moves by x per unit
      of w and by one per unit of u: each w-partial is x times the matching
      u-partial, plus the terms the product rule adds for each x-derivative. */
  predicate WeightChain(pw: Partials, pu: Partials, x: real)
  {
    pw.dp == x * pu.dp
    && pw.dpp == x * Id(x) * pu.dpp
    && pw.dpx == x * pu.dpx + pu.dp
    && pw.dppx == x * Id(x) * pu.dppx + 2.0 * x * pu.dpp
    && pw.dpxx == x * pu.dpxx + 2.0 * pu.dpx
    && pw.dppxx == x * Id(x) * pu.dppxx + 4.0 * x * pu.dppx + 2.0 * pu.dpp
  }

  // The field values of the builders above, as facts a caller can cite
  // without unfolding the definitions.

  lemma ScaleFields(k: real, q: Partials)
    ensures ScalePartials(k, q).dp == k * q.dp && ScalePartials(k, q).dpp == k * q.dpp
    ensures ScalePartials(k, q).dpx == k * q.dpx && ScalePartials(k, q).dppx == k * q.dppx
    ensures ScalePartials(k, q).dpxx == k * q.dpxx && ScalePartials(k, q).dppxx == k * q.dppxx
  {
  }

  lemma BiasFields(s1: real, s2: real, s3: real, s4: real, w: real)
    ensures BiasFactors(s1, s2, s3, s4, w).dp == s1 && BiasFactors(s1, s2, s3, s4, w).dpp == s2
    ensures BiasFactors(s1, s2, s3, s4, w).dpx == s2 * w && BiasFactors(s1, s2, s3, s4, w).dppx == s3 * w
    ensures BiasFactors(s1, s2, s3, s4, w).dpxx == s3 * w * w && BiasFactors(s1, s2, s3, s4, w).dppxx == s4 * w * w
  {
  }

  lemma WeightFields(s1: real, s2: real, s3: real, s4: real, w: real, x: real)
    ensures WeightFactors(s1, s2, s3, s4, w, x).dp == s1 * x
    ensures WeightFactors(s1, s2, s3, s4, w, x).dpp == s2 * x * x
    ensures WeightFactors(s1, s2, s3, s4, w, x).dpx == s1 + s2 * w * x
    ensures WeightFactors(s1, s2, s3, s4, w, x).dppx == s2 * x + (s2 + s3 * w * x) * x
    ensures WeightFactors(s1, s2, s3, s4, w, x).dpxx == 2.0 * s2 * w + s3 * w * w * x
    ensures WeightFactors(s1, s2, s3, s4, w, x).dppxx
         == 2.0 * s2 + 2.0 * s3 * x * w + (s3 * 2.0 * w + s4 * w * w * x) * x
  {
  }

  lemma FamilyCases(s0: real, s1: real, s2: real, s3: real, s4: real, v: real, w: real, x: real)
    ensures FamilyPartials(V, s0, s1, s2, s3, s4, v, w, x) == PartialsV(s0, s1, s2, w)
    ensures FamilyPartials(U, s0, s1, s2, s3, s4, v, w, x) == ScalePartials(v, BiasFactors(s1, s2, s3, s4, w))
    ensures FamilyPartials(W, s0, s1, s2, s3, s4, v, w, x) == ScalePartials(v, WeightFactors(s1, s2, s3, s4, w, x))
  {
  }

  /** Along the bias the value partial is v * sigma'(z), whatever w and x. */
  lemma BiasValue(s0: real, s1: real, s2: real, s3: real, s4: real, v: real, w: real, x: real)
    ensures FamilyPartials(U, s0, s1, s2, s3, s4, v, w, x).dp == v * s1
  {
    FamilyCases(s0, s1, s2, s3, s4, v, w, x);
    ScaleFields(v, BiasFactors(s1, s2, s3, s4, w));
    BiasFields(s1, s2, s3, s4, w);
  }

  // The chain rule one partial at a time, over named values: fw and fu are
  // the weight and bias factors, pw and pu the same scaled by v: the partials of the
  // two families.

  lemma ChainDp(v: real, s1: real, x: real, fw: real, fu: real, pw: real, pu: real)
    requires fw == s1 * x && fu == s1
    requires pw == v * fw && pu == v * fu
    ensures pw == x * pu
  {
  }

  lemma ChainDpp(v: real, s2: real, x: real, fw: real, fu: real, pw: real, pu: real)
    requires fw == s2 * x * x && fu == s2
    requires pw == v * fw && pu == v * fu
    ensures pw == x * Id(x) * pu
  {
  }

  lemma ChainDpx(v: real, s1: real, s2: real, w: real, x: real, fw: real, fu: real, fu0: real,
                 pw: real, pu: real, pu0: real)
    requires fw == s1 + s2 * w * x && fu == s2 * w && fu0 == s1
    requires pw == v * fw && pu == v * fu && pu0 == v * fu0
    ensures pw == x * pu + pu0
  {
  }

  lemma ChainDppx(v: real, s2: real, s3: real, w: real, x: real, fw: real, fu: real, fu0: real,
                  pw: real, pu: real, pu0: real)
    requires fw == s2 * x + (s2 + s3 * w * x) * x && fu == s3 * w && fu0 == s2
    requires pw == v * fw && pu == v * fu && pu0 == v * fu0
    ensures pw == x * Id(x) * pu + 2.0 * x * pu0
  {
  }

  lemma ChainDpxx(v: real, s2: real, s3: real, w: real, x: real, fw: real, fu: real, fu0: real,
                  pw: real, pu: real, pu0: real)
    requires fw == 2.0 * s2 * w + s3 * w * w * x && fu == s3 * w * w && fu0 == s2 * w
    requires pw == v * fw && pu == v * fu && pu0 == v * fu0
    ensures pw == x * pu + 2.0 * pu0
  {
  }

  lemma ChainDppxx(v: real, s2: real, s3: real, s4: real, w: real, x: real, fw: real, fu: real, fu1: real, fu0: real,
                   pw: real, pu: real, pu1: real, pu0: real)
    requires fw == 2.0 * s2 + 2.0 * s3 * x * w + (s3 * 2.0 * w + s4 * w * w * x) * x
    requires fu == s4 * w * w && fu1 == s3 * w && fu0 == s2
    requires pw == v * fw && pu == v * fu && pu1 == v * fu1 && pu0 == v * fu0
    ensures pw == x * Id(x) * pu + 4.0 * x * pu1 + 2.0 * pu0
  {
  }

  // The chain rule one partial at a time. The first lemma of each pair works
  // over named partial lists (fw and fu the weight and bias factors, pw and
  // pu the partials of the two families); the second states the result for
  // the unit's scalars.

  lemma ChainFieldDp(s0: real, s1: real, s2: real, s3: real, s4: real, v: real, w: real, x: real,
                       fw: Partials, fu: Partials, pw: Partials, pu: Partials)
    requires fw == WeightFactors(s1, s2, s3, s4, w, x) && fu == BiasFactors(s1, s2, s3, s4, w)
    requires pw == FamilyPartials(W, s0, s1, s2, s3, s4, v, w, x) && pu == FamilyPartials(U, s0, s1, s2, s3, s4, v, w, x)
    ensures pw.dp == x * pu.dp
  {
    FamilyCases(s0, s1, s2, s3, s4, v, w, x);
    WeightFields(s1, s2, s3, s4, w, x);
    BiasFields(s1, s2, s3, s4, w);
    ScaleFields(v, fw);
    ScaleFields(v, fu);
    ChainDp(v, s1, x, fw.dp, fu.dp, pw.dp, pu.dp);
  }

  lemma FamilyChainDp(s0: real, s1: real, s2: real, s3: real, s4: real, v: real, w: real, x: real)
    ensures FamilyPartials(W, s0, s1, s2, s3, s4, v, w, x).dp == x * FamilyPartials(U, s0, s1, s2, s3, s4, v, w, x).dp
  {
    ChainFieldDp(s0, s1, s2, s3, s4, v, w, x, WeightFactors(s1, s2, s3, s4, w, x), BiasFactors(s1, s2, s3, s4, w), FamilyPartials(W, s0, s1, s2, s3, s4, v, w, x), FamilyPartials(U, s0, s1, s2, s3, s4, v, w, x));
  }

  lemma ChainFieldDpp(s0: real, s1: real, s2: real, s3: real, s4: real, v: real, w: real, x: real,
                       fw: Partials, fu: Partials, pw: Partials, pu: Partials)
    requires fw == WeightFactors(s1, s2, s3, s4, w, x) && fu == BiasFactors(s1, s2, s3, s4, w)
    requires pw == FamilyPartials(W, s0, s1, s2, s3, s4, v, w, x) && pu == FamilyPartials(U, s0, s1, s2, s3, s4, v, w, x)
    ensures pw.dpp == x * Id(x) * pu.dpp
  {
    FamilyCases(s0, s1, s2, s3, s4, v, w, x);
    WeightFields(s1, s2, s3, s4, w, x);
    BiasFields(s1, s2, s3, s4, w);
    ScaleFields(v, fw);
    ScaleFields(v, fu);
    ChainDpp(v, s2, x, fw.dpp, fu.dpp, pw.dpp, pu.dpp);
  }

  lemma FamilyChainDpp(s0: real, s1: real, s2: real, s3: real, s4: real, v: real, w: real, x: real)
    ensures FamilyPartials(W, s0, s1, s2, s3, s4, v, w, x).dpp == x * Id(x) * FamilyPartials(U, s0, s1, s2, s3, s4, v, w, x).dpp
  {
    ChainFieldDpp(s0, s1, s2, s3, s4, v, w, x, WeightFactors(s1, s2, s3, s4, w, x), BiasFactors(s1, s2, s3, s4, w), FamilyPartials(W, s0, s1, s2, s3, s4, v, w, x), FamilyPartials(U, s0, s1, s2, s3, s4, v, w, x));
  }

  lemma ChainFieldDpx(s0: real, s1: real, s2: real, s3: real, s4: real, v: real, w: real, x: real,
                       fw: Partials, fu: Partials, pw: Partials, pu: Partials)
    requires fw == WeightFactors(s1, s2, s3, s4, w, x) && fu == BiasFactors(s1, s2, s3, s4, w)
    requires pw == FamilyPartials(W, s0, s1, s2, s3, s4, v, w, x) && pu == FamilyPartials(U, s0, s1, s2, s3, s4, v, w, x)
    ensures pw.dpx == x * pu.dpx + pu.dp
  {
    FamilyCases(s0, s1, s2, s3, s4, v, w, x);
    WeightFields(s1, s2, s3, s4, w, x);
    BiasFields(s1, s2, s3, s4, w);
    ScaleFields(v, fw);
    ScaleFields(v, fu);
    ChainDpx(v, s1, s2, w, x, fw.dpx, fu.dpx, fu.dp, pw.dpx, pu.dpx, pu.dp);
  }

  lemma FamilyChainDpx(s0: real, s1: real, s2: real, s3: real, s4: real, v: real, w: real, x: real)
    ensures FamilyPartials(W, s0, s1, s2, s3, s4, v, w, x).dpx == x * FamilyPartials(U, s0, s1, s2, s3, s4, v, w, x).dpx + FamilyPartials(U, s0, s1, s2, s3, s4, v, w, x).dp
  {
    ChainFieldDpx(s0, s1, s2, s3, s4, v, w, x, WeightFactors(s1, s2, s3, s4, w, x), BiasFactors(s1, s2, s3, s4, w), FamilyPartials(W, s0, s1, s2, s3, s4, v, w, x), FamilyPartials(U, s0, s1, s2, s3, s4, v, w, x));
  }

  lemma ChainFieldDppx(s0: real, s1: real, s2: real, s3: real, s4: real, v: real, w: real, x: real,
                       fw: Partials, fu: Partials, pw: Partials, pu: Partials)
    requires fw == WeightFactors(s1, s2, s3, s4, w, x) && fu == BiasFactors(s1, s2, s3, s4, w)
    requires pw == FamilyPartials(W, s0, s1, s2, s3, s4, v, w, x) && pu == FamilyPartials(U, s0, s1, s2, s3, s4, v, w, x)
    ensures pw.dppx == x * Id(x) * pu.dppx + 2.0 * x * pu.dpp
  {
    FamilyCases(s0, s1, s2, s3, s4, v, w, x);
    WeightFields(s1, s2, s3, s4, w, x);
    BiasFields(s1, s2, s3, s4, w);
    ScaleFields(v, fw);
    ScaleFields(v, fu);
    ChainDppx(v, s2, s3, w, x, fw.dppx, fu.dppx, fu.dpp, pw.dppx, pu.dppx, pu.dpp);
  }

  lemma FamilyChainDppx(s0: real, s1: real, s2: real, s3: real, s4: real, v: real, w: real, x: real)
    ensures FamilyPartials(W, s0, s1, s2, s3, s4, v, w, x).dppx == x * Id(x) * FamilyPartials(U, s0, s1, s2, s3, s4, v, w, x).dppx + 2.0 * x * FamilyPartials(U, s0, s1, s2, s3, s4, v, w, x).dpp
  {
    ChainFieldDppx(s0, s1, s2, s3, s4, v, w, x, WeightFactors(s1, s2, s3, s4, w, x), BiasFactors(s1, s2, s3, s4, w), FamilyPartials(W, s0, s1, s2, s3, s4, v, w, x), FamilyPartials(U, s0, s1, s2, s3, s4, v, w, x));
  }

  lemma ChainFieldDpxx(s0: real, s1: real, s2: real, s3: real, s4: real, v: real, w: real, x: real,
                       fw: Partials, fu: Partials, pw: Partials, pu: Partials)
    requires fw == WeightFactors(s1, s2, s3, s4, w, x) && fu == BiasFactors(s1, s2, s3, s4, w)
    requires pw == FamilyPartials(W, s0, s1, s2, s3, s4, v, w, x) && pu == FamilyPartials(U, s0, s1, s2, s3, s4, v, w, x)
    ensures pw.dpxx == x * pu.dpxx + 2.0 * pu.dpx
  {
    FamilyCases(s0, s1, s2, s3, s4, v, w, x);
    WeightFields(s1, s2, s3, s4, w, x);
    BiasFields(s1, s2, s3, s4, w);
    ScaleFields(v, fw);
    ScaleFields(v, fu);
    ChainDpxx(v, s2, s3, w, x, fw.dpxx, fu.dpxx, fu.dpx, pw.dpxx, pu.dpxx, pu.dpx);
  }

  lemma FamilyChainDpxx(s0: real, s1: real, s2: real, s3: real, s4: real, v: real, w: real, x: real)
    ensures FamilyPartials(W, s0, s1, s2, s3, s4, v, w, x).dpxx == x * FamilyPartials(U, s0, s1, s2, s3, s4, v, w, x).dpxx + 2.0 * FamilyPartials(U, s0, s1, s2, s3, s4, v, w, x).dpx
  {
    ChainFieldDpxx(s0, s1, s2, s3, s4, v, w, x, WeightFactors(s1, s2, s3, s4, w, x), BiasFactors(s1, s2, s3, s4, w), FamilyPartials(W, s0, s1, s2, s3, s4, v, w, x), FamilyPartials(U, s0, s1, s2, s3, s4, v, w, x));
  }

  lemma ChainFieldDppxx(s0: real, s1: real, s2: real, s3: real, s4: real, v: real, w: real, x: real,
                       fw: Partials, fu: Partials, pw: Partials, pu: Partials)
    requires fw == WeightFactors(s1, s2, s3, s4, w, x) && fu == BiasFactors(s1, s2, s3, s4, w)
    requires pw == FamilyPartials(W, s0, s1, s2, s3, s4, v, w, x) && pu == FamilyPartials(U, s0, s1, s2, s3, s4, v, w, x)
    ensures pw.dppxx == x * Id(x) * pu.dppxx + 4.0 * x * pu.dppx + 2.0 * pu.dpp
  {
    FamilyCases(s0, s1, s2, s3, s4, v, w, x);
    WeightFields(s1, s2, s3, s4, w, x);
    BiasFields(s1, s2, s3, s4, w);
    ScaleFields(v, fw);
    ScaleFields(v, fu);
    ChainDppxx(v, s2, s3, s4, w, x, fw.dppxx, fu.dppxx, fu.dppx, fu.dpp, pw.dppxx, pu.dppxx, pu.dppx, pu.dpp);
  }

  lemma FamilyChainDppxx(s0: real, s1: real, s2: real, s3: real, s4: real, v: real, w: real, x: real)
    ensures FamilyPartials(W, s0, s1, s2, s3, s4, v, w, x).dppxx == x * Id(x) * FamilyPartials(U, s0, s1, s2, s3, s4, v, w, x).dppxx + 4.0 * x * FamilyPartials(U, s0, s1, s2, s3, s4, v, w, x).dppx + 2.0 * FamilyPartials(U, s0, s1, s2, s3, s4, v, w, x).dpp
  {
    ChainFieldDppxx(s0, s1, s2, s3, s4, v, w, x, WeightFactors(s1, s2, s3, s4, w, x), BiasFactors(s1, s2, s3, s4, w), FamilyPartials(W, s0, s1, s2, s3, s4, v, w, x), FamilyPartials(U, s0, s1, s2, s3, s4, v, w, x));
  }

  /** The six identities that make up the chain rule, gathered. */
  lemma WeightChainIntro(pw: Partials, pu: Partials, x: real)
    requires pw.dp == x * pu.dp
    requires pw.dpp == x * Id(x) * pu.dpp
    requires pw.dpx == x * pu.dpx + pu.dp
    requires pw.dppx == x * Id(x) * pu.dppx + 2.0 * x * pu.dpp
    requires pw.dpxx == x * pu.dpxx + 2.0 * pu.dpx
    requires pw.dppxx == x * Id(x) * pu.dppxx + 4.0 * x * pu.dppx + 2.0 * pu.dpp
    ensures WeightChain(pw, pu, x)
  {
  }

  /** The chain rule holds between the input-weight and bias partials of one
      unit, whatever the activation's derivatives are: the hand-expanded
      input-weight formulas are the bias formulas carried through w*x + u. */
  lemma FamilyChainRule(s0: real, s1: real, s2: real, s3: real, s4: real, v: real, w: real, x: real)
    ensures WeightChain(FamilyPartials(W, s0, s1, s2, s3, s4, v, w, x), FamilyPartials(U, s0, s1, s2, s3, s4, v, w, x), x)
  {
    FamilyChainDp(s0, s1, s2, s3, s4, v, w, x);
    FamilyChainDpp(s0, s1, s2, s3, s4, v, w, x);
    FamilyChainDpx(s0, s1, s2, s3, s4, v, w, x);
    FamilyChainDppx(s0, s1, s2, s3, s4, v, w, x);
    FamilyChainDpxx(s0, s1, s2, s3, s4, v, w, x);
    FamilyChainDppxx(s0, s1, s2, s3, s4, v, w, x);
    WeightChainIntro(FamilyPartials(W, s0, s1, s2, s3, s4, v, w, x), FamilyPartials(U, s0, s1, s2, s3, s4, v, w, x), x);
  }

  /** The output is homogeneous of degree one in v: the unit's contributions
      to N, dN/dx and d2N/dx2 are v times their v-partials, and every second
      v-partial is zero. */
  lemma FamilyOutputLinear(s0: real, s1: real, s2: real, s3: real, s4: real, v: real, w: real, x: real)
    ensures v * FamilyPartials(V, s0, s1, s2, s3, s4, v, w, x).dp == v * s0
    ensures v * FamilyPartials(V, s0, s1, s2, s3, s4, v, w, x).dpx == v * (s1 * w)
    ensures v * FamilyPartials(V, s0, s1, s2, s3, s4, v, w, x).dpxx == v * (s2 * w * w)
    ensures FamilyPartials(V, s0, s1, s2, s3, s4, v, w, x).dpp == 0.0
    ensures FamilyPartials(V, s0, s1, s2, s3, s4, v, w, x).dppx == 0.0
    ensures FamilyPartials(V, s0, s1, s2, s3, s4, v, w, x).dppxx == 0.0
  {
  }
}
