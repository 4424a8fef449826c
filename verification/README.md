# Neural-network solvers for differential equations, as algebra

This project models the training core of three solvers that approximate the
solution of a differential equation by a trial function built around a small
neural network:

- `nnode1.py` solves a first-order equation dy/dx = F(x, y) with y(b) = A.
  Its trial solution is yt = A + (x - b) N(x).
- `nnode2ivp.py` solves a second-order initial value problem
  d2y/dx2 = F(x, y, dy/dx) with y(0) = A and dy/dx(0) = Ap.
  Its trial solution is yt = A + x Ap + x^2 N(x).
- `nnpde2bvp.py` solves a second-order equation
  G(x, Y, grad Y, del2 Y) = 0 on the unit square with Dirichlet data.
  Its trial solution is Yt = A + P N, where A blends the four edge functions
  and P = x(1 - x)y(1 - y) vanishes on the boundary.

All three networks have one hidden layer with a sigmoid activation:
N = sum over k of v[k] sigma(w[k] x + u[k]), with two input weights per unit
in the PDE solver. Every epoch evaluates the network, its hand-expanded
derivatives, the trial solution, the residual at each training point, the
squared error E, and the partials of E along every parameter. It then
updates every parameter from the same snapshot. The ODE solvers take a
diagonal Newton step, p - eta dE/dp / d2E/dp2. The PDE solver takes a plain
gradient step, p - eta dE/dp. The sample problem `eq/ode2_bvp_00.py` is
modelled as well.

How the model is built:

- Numbers are `real`. The activation is uninterpreted: `Activation.Sigmoid`
  holds sigma and its first four derivatives as arbitrary functions. Every
  result therefore holds for any smooth activation.
- The equation's right-hand side, its partials and the boundary functions
  are likewise parameters.
- The hand-expanded derivative formulas are checked against an independent
  reference. Module `Jets` computes truncated two-variable Taylor series,
  with one series variable for the input and one for a parameter. The
  network is built from the series of sigma by sums and products only. The
  lemmas then show that each closed form the solvers write out is a
  coefficient of that series. These lemmas are `UnitJets.NetJetDerivatives`,
  `Network2.AxisJetDerivatives`, `Ode1.ResidualDerivatives`,
  `Ode2Ivp.ResidualDerivatives` and `Pde2Bvp.PointGradientChain`. The
  residual series of `Ode2Ivp` holds F's dy/dx argument fixed, as the
  solver's chain rule does (see "Left out").
- `Errors.ErrorSeries` shows, for any residuals and sensitivities, that the
  accumulated E, dE and d2E are the value and first two parameter
  derivatives of the sum of the squared residual series.
  `Ode1.ErrorDerivatives`, `Ode2Ivp.ErrorDerivatives` and
  `Pde2Bvp.ParamGradientSeries` apply this to each solver's own residuals.
- The PDE solver is modelled with its three findings corrected (see
  "Findings"). From `Pde2Bvp.Trial` on, its members use the corrected dA/dy
  and the full chain rule for dG/dp. The formulas as written are kept
  beside them, with lemmas that measure the difference.

The modules follow the program's structure:

| module | file | models |
|---|---|---|
| `Sums`, `Algebra` | sums.dfy, algebra.dfy | finite sums and small real-arithmetic facts |
| `Jets` | jets.dfy | the Taylor-series reference |
| `Activation` | activation.dfy | sigma and its derivatives |
| `Errors` | errors.dfy | E, dE, d2E and the two update rules |
| `Sensitivity` | partials.dfy | one hidden unit's partials along v, u, w |
| `Network1`, `UnitJets` | network1.dfy, unitjets.dfy | the one-input network and its series |
| `Network2` | network2.dfy | the two-input network, viewed along one axis |
| `Boundary` | boundary.dfy | A, P and their derivatives (nnpde2bvp.py:66-151) |
| `Ode1`, `Ode2Ivp`, `Pde2Bvp` | ode1.dfy, ode2ivp.dfy, pde2bvp.dfy | the three training loops |
| `Ode2Bvp00` | ode2bvp00.dfy | the sample problem |

## Model

| member | source | states |
|---|---|---|
| Errors.Error | nnode1.py:177-179 | E, the sum of squared residuals, is never negative, and it is zero exactly when every residual is zero |
| Errors.Grad | nnpde2bvp.py:430-439 | the accumulated dE/dp, the sum of 2 r dr, vanishes when every residual vanishes |
| Errors.Curv | nnode1.py:381-397 | at a snapshot with all residuals zero, d2E/dp2 is non-negative, and it is zero exactly when every residual sensitivity is zero |
| Errors.SquaredJets | nnode1.py:361-397 | when each residual and its two sensitivities are the coefficients of a series, E, dE and d2E are those of the sum of the squared series |
| Errors.ErrorSeries | nnode1.py:361-397 | E, dE and d2E as accumulated are the value and first two parameter derivatives of the sum of the squared residual series |
| Errors.NewtonStep | nnode1.py:407-413 | the step leaves a parameter in place exactly when its gradient is zero or eta is zero; with eta and the curvature positive, it lowers the parameter exactly when the gradient is positive |
| Errors.DescentStep | nnpde2bvp.py:449-456 | the step leaves a parameter in place exactly when its gradient is zero or eta is zero; with eta positive, it lowers the parameter exactly when the gradient is positive |
| Errors.StepsFixZeroGradient | nnode2ivp.py:424-430 | an all-zero gradient leaves a parameter array unchanged under either update rule |
| Sensitivity.FamilyChainRule | nnode2ivp.py:185-213 | for any activation derivatives, every hand-written input-weight partial (to second order in w, with up to two x-derivatives) is x times the matching bias partial plus the product-rule terms of the net input w x + u |
| Sensitivity.FamilyOutputLinear | nnode2ivp.py:182-190 | a unit's terms of N, dN/dx and d2N/dx2 are v times their v-partials, and every second v-partial is zero |
| Network1.WeightChainRule | nnode1.py:195-202 | for each unit of the one-input network, the w-partials are related to the u-partials by the chain rule through w x + u |
| Network1.OutputWeightLinear | nnode1.py:278-285 | the network is homogeneous of degree one in each output weight, so its second v-partials are zero |
| Network1.AffineInV | nnode1.py:124-131 | moving v[k] by h moves N, dN/dx and d2N/dx2 by exactly h times their v-partials, for any h |
| Network1.NetworkLinearInV | nnode1.py:124-131 | N and its x-derivatives equal the sum over units of v[k] times their v-partials |
| Network1.NewtonUpdate | nnode1.py:407-423 | every parameter is updated from the same snapshot; with a non-zero eta a parameter moves exactly when its gradient is non-zero; a zero gradient is a fixed point |
| UnitJets.UnitJetDerivatives | nnode2ivp.py:159-213 | each unit's hand-written partials are the coefficients of the series of v sigma(w x + u), for every parameter family |
| UnitJets.NetJetDerivatives | nnode1.py:195-301 | the network series has value N, slope dN/dx and bend d2N/dx2, and its parameter coefficients are the hand-written partials of unit k |
| Network2.WeightChainRule | nnpde2bvp.py:280-292 | for each unit and axis, the partials along that axis's input weight are the coordinate times the bias partials plus the product-rule terms of the net input |
| Network2.NetworkLinearInV | nnpde2bvp.py:278-288 | N and its first two derivatives along either axis are the sums over units of v[k] times their v-partials |
| Network2.SliceNetwork | nnpde2bvp.py:242-292 | along one axis the two-input network is a one-input network whose biases absorb the other coordinate; both give the same N and derivatives |
| Network2.SliceMoveWeight | nnpde2bvp.py:249-251 | along the other axis, moving an input weight by h is moving the slice's bias by h times that weight's coordinate |
| Network2.AxisJetDerivatives | nnpde2bvp.py:264-292 | the per-axis partials dN/dv, dN/du, dN/dw and their first two axis derivatives are coefficients of the network series along that axis |
| Network2.CrossJetDerivatives | nnpde2bvp.py:264-292 | along the other axis, an input weight's partials are the coordinate times the bias partials, again as series coefficients |
| Boundary.Anchor | nnpde2bvp.py:66-74 | A equals f0(y) on the edge x = 0 and f1(y) on the edge x = 1, whatever the corners |
| Boundary.AnchorBottomEdge | nnpde2bvp.py:66-74 | A equals g0 along the whole edge y = 0 if and only if the two corners of that edge agree |
| Boundary.AnchorTopEdge | nnpde2bvp.py:66-74 | A equals g1 along the whole edge y = 1 if and only if the two corners of that edge agree |
| Boundary.AnchorOnBoundary | nnpde2bvp.py:66-74 | with agreeing corners, A meets the Dirichlet data on all four edges |
| Boundary.AnchorTaylorX | nnpde2bvp.py:76-84 | for edge functions that are at most quadratic, dA/dx and d2A/dx2 (lines 99-105) expand A exactly along x |
| Boundary.AnchorTaylorY | nnpde2bvp.py:107-113 | for edge functions that are at most quadratic, the corrected dA/dy and d2A/dy2 expand A exactly along y |
| Boundary.AnchorDyAsWritten | nnpde2bvp.py:86-95 | dA_dyf as written exceeds the true dA/dy by 2 x g1(1) |
| Boundary.AnchorDyCounterexample | nnpde2bvp.py:93 | with the data 1 on every edge, A is 1 everywhere and the corrected dA/dy is 0; dA_dyf as written gives 1 at (1/2, 1/2) |
| Boundary.Bump | nnpde2bvp.py:117-120 | the factor t(1 - t) of P is zero exactly at t = 0 and t = 1 |
| Boundary.Envelope | nnpde2bvp.py:117-120 | P is zero exactly on the four lines that carry the edges of the unit square |
| Boundary.EnvelopeTaylorX | nnpde2bvp.py:122-125 | dP/dx and d2P/dx2 (lines 134-137) expand P exactly along x |
| Boundary.EnvelopeTaylorY | nnpde2bvp.py:127-130 | dP/dy and d2P/dy2 (lines 139-142) expand P exactly along y |
| Boundary.TrialValue | nnpde2bvp.py:147-151 | Yt = A + P N equals A on the boundary whatever the network output |
| Ode1.YTrial | nnode1.py:42-43 | the trial solution meets y(b) = A for every network output |
| Ode1.DYTrial | nnode1.py:46-47 | at x = b the trial slope is the network output |
| Ode1.TrialSensitivity | nnode1.py:221-228 | at x = b the trial value does not move with any parameter, and its mixed sensitivities reduce to the network's |
| Ode1.TrialJetDerivatives | nnode1.py:221-352 | the hand-written trial value, slope and four sensitivities are coefficients of the series of A + (x - b) N |
| Ode1.TrialOutputWeightFlat | nnode1.py:313-352 | along an output weight, d2yt/dv2 and d3yt/dv2dx are zero at every x |
| Ode1.PointResidual | nnode1.py:234-247 | the residual is dyt/dx - F(x, yt); at x = b its sensitivities are the network's |
| Ode1.ResidualDerivatives | nnode1.py:326-339 | the chained sensitivities of dyt/dx - F(x, yt) are the first two parameter derivatives of the residual series built from the network series |
| Ode1.ErrorDerivatives | nnode1.py:361-397 | E and the accumulated dE and d2E along each parameter are the value and first two parameter derivatives of the sum of the squared residual series built from the network series |
| Ode1.FamilyGradient | nnode1.py:361-374 | dE/dp along every parameter of a family is zero when every residual is zero |
| Ode1.FamilyCurvature | nnode1.py:381-397 | d2E/dp2 along every parameter of a family is non-negative when every residual is zero |
| Ode1.Gradient | nnode1.py:361-374 | a snapshot that solves the equation at every training point has zero gradient |
| Ode1.Epoch | nnode1.py:407-423 | an epoch fails exactly when some d2E/dp2 is zero; otherwise it keeps the shape of the parameters, and a snapshot that solves the equation at every training point is a fixed point |
| Ode1.Run | nnode1.py:107-423 | after the epochs the parameters keep their shape; a failure names an epoch that was actually run |
| Ode1.RunFixedPoint | nnode1.py:107-423 | a snapshot that solves the equation at every training point, with no zero curvature, survives any number of epochs unchanged |
| Ode1.TrialSolution | nnode1.py:137-166 | at a training point equal to b, yt is A and dyt/dx is the network output |
| Ode1.Train | nnode1.py:69-426 | training succeeds exactly when the maxepochs - 1 updates do, and then returns the trial solution of the snapshot they reach, the values computed in the last epoch; they meet y(b) = A at every training point equal to b, and a zero curvature can only stop one of those updates |
| Ode1.TrainSolved | nnode1.py:107-426 | training from a snapshot that already solves the equation at every training point, with no zero curvature, returns that snapshot's trial solution |
| Ode2Ivp.YTrial | nnode2ivp.py:43-46 | the trial solution meets y(0) = A for every network output |
| Ode2Ivp.DYTrial | nnode2ivp.py:49-52 | the trial slope meets dy/dx(0) = Ap for every network output |
| Ode2Ivp.D2YTrial | nnode2ivp.py:55-58 | at x = 0 the trial curvature is twice the network output |
| Ode2Ivp.ConstantOutputTaylor | nnode2ivp.py:43-58 | for a constant network output, the trial slope and curvature expand the trial solution exactly |
| Ode2Ivp.TrialSensitivity | nnode2ivp.py:267-314 | at x = 0 every sensitivity but the two with two x-derivatives vanishes; a parameter the network is linear in leaves every second sensitivity zero |
| Ode2Ivp.TrialOutputWeightFlat | nnode2ivp.py:267-314 | along an output weight every second sensitivity of the trial solution is zero |
| Ode2Ivp.TrialJetDerivatives | nnode2ivp.py:263-314 | the hand-written trial value, its x-derivatives and its six sensitivities are coefficients of the series of A + x Ap + x^2 N |
| Ode2Ivp.PointResidual | nnode2ivp.py:339-364 | the residual is d2yt/dx2 - F(x, yt, dyt/dx); at x = 0 its two sensitivities are twice the network's, since F's argument yt does not move there |
| Ode2Ivp.ResidualDerivatives | nnode2ivp.py:339-364 | with F's dy/dx argument held fixed, the chained sensitivities of the residual are the first two parameter derivatives of the residual series built from the network series |
| Ode2Ivp.ErrorDerivatives | nnode2ivp.py:383-411 | with F's dy/dx argument held fixed, E and the accumulated dE and d2E are the value and first two parameter derivatives of the sum of the squared residual series |
| Ode2Ivp.FamilyGradient | nnode2ivp.py:383-395 | dE/dp along every parameter of a family is zero when every residual is zero |
| Ode2Ivp.FamilyCurvature | nnode2ivp.py:396-411 | d2E/dp2 along every parameter of a family is non-negative when every residual is zero |
| Ode2Ivp.Gradient | nnode2ivp.py:383-395 | a snapshot that solves the equation at every training point has zero gradient |
| Ode2Ivp.Epoch | nnode2ivp.py:424-440 | an epoch fails exactly when some d2E/dp2 is zero; a snapshot that solves the equation at every training point is a fixed point |
| Ode2Ivp.Run | nnode2ivp.py:128-440 | after the epochs the parameters keep their shape; a failure names an epoch that was actually run |
| Ode2Ivp.RunFixedPoint | nnode2ivp.py:128-440 | a snapshot that solves the equation at every training point, with no zero curvature, survives any number of epochs unchanged |
| Ode2Ivp.TrialSolution | nnode2ivp.py:262-265 | at x = 0 the values returned are A and Ap |
| Ode2Ivp.Train | nnode2ivp.py:88-443 | training succeeds exactly when the maxepochs - 1 updates do, and then returns the trial solution of the snapshot they reach, the values computed in the last epoch; they meet both initial conditions at every training point equal to 0, and a zero curvature can only stop one of those updates |
| Ode2Ivp.TrainSolved | nnode2ivp.py:128-443 | training from a snapshot that already solves the equation at every training point, with no zero curvature, returns that snapshot's trial solution |
| Pde2Bvp.Trial | nnpde2bvp.py:327-339 | the trial value is the anchor on the boundary lines, whatever the network; its y-slope uses the corrected dA/dy |
| Pde2Bvp.ParamJetDerivatives | nnpde2bvp.py:264-292 | for every parameter and along either axis, the network rates are coefficients of the network series, including an input weight seen along the other axis |
| Pde2Bvp.TrialRates | nnpde2bvp.py:340-365 | on the boundary lines dYt/dp is zero for every parameter |
| Pde2Bvp.TrialJetDerivatives | nnpde2bvp.py:340-365 | Yt, dYt/dx_j, d2Yt/dx_j^2 and their parameter rates are coefficients of the series of A + P N along axis j |
| Pde2Bvp.PointRatesValueAgree | nnpde2bvp.py:340-345 | dYt/dp comes out the same whichever axis the rates are built along |
| Pde2Bvp.PointGradientChain | nnpde2bvp.py:401-413 | the corrected dG/dp is the chain rule through every argument of G, fed with true parameter derivatives of Yt, grad Yt and del2 Yt |
| Pde2Bvp.DroppedBendGap | nnpde2bvp.py:403-408 | along v or u, the accumulation as written misses exactly the second-derivative term of each axis |
| Pde2Bvp.CrossAxisGap | nnpde2bvp.py:409-413 | along an input weight, the accumulation as written misses exactly every term of the other axis |
| Pde2Bvp.LaplaceGradientExact | nnpde2bvp.py:401-408 | for Laplace's equation the corrected dG/dp is the parameter derivative of Yxx + Yyy, for every network, parameter and point |
| Pde2Bvp.DroppedBendCounterexample | nnpde2bvp.py:403-408 | for Laplace's equation, one linear unit and any interior point, dG/dv is d2P/dx2 + d2P/dy2 < 0 while the accumulation as written gives 0 |
| Pde2Bvp.CrossAxisCounterexample | nnpde2bvp.py:409-413 | in the same setting, along the x input weight the accumulation as written exceeds dG/dw by -x d2P/dy2 > 0 |
| Pde2Bvp.ErrorOf | nnpde2bvp.py:423-425 | E is never negative, and it is zero exactly when G vanishes at every training point |
| Pde2Bvp.ParamGradient | nnpde2bvp.py:430-439 | dE/dp is zero when G vanishes at every training point |
| Pde2Bvp.ParamGradientSeries | nnpde2bvp.py:430-439 | the accumulated dE/dp is the first parameter derivative of the sum of the squared residual series |
| Pde2Bvp.Gradient | nnpde2bvp.py:430-439 | a snapshot at which G vanishes at every training point has zero gradient for all four parameter arrays |
| Pde2Bvp.Descend | nnpde2bvp.py:449-466 | all four arrays are updated from the same snapshot; with eta positive, a parameter moves exactly when its gradient is non-zero, and then against its sign |
| Pde2Bvp.Epoch | nnpde2bvp.py:237-466 | an epoch keeps the shape of the parameters, and a snapshot at which G vanishes at every training point is a fixed point |
| Pde2Bvp.RunFixedPoint | nnpde2bvp.py:237-466 | such a snapshot survives any number of epochs unchanged |
| Pde2Bvp.TrialSolution | nnpde2bvp.py:327-339 | on the boundary lines the trial values are the anchor's |
| Pde2Bvp.Train | nnpde2bvp.py:188-469 | the values returned are the trial solution of the snapshot after maxepochs - 1 updates, the values computed in the last epoch; on the boundary lines they are the anchor's, whatever the training did |
| Pde2Bvp.TrainSolved | nnpde2bvp.py:237-469 | training from a snapshot at which G already vanishes at every training point returns that snapshot's trial solution |
| Ode2Bvp00.SolutionSatisfies | eq/ode2_bvp_00.py:8-9 | the analytical solution x^2 + x + 1 satisfies G = 0 at every x |
| Ode2Bvp00.SolutionBoundary | eq/ode2_bvp_00.py:12-13 | the analytical solution meets y(0) = 1 and y(1) = 3 |
| Ode2Bvp00.PartialsExact | eq/ode2_bvp_00.py:17-24 | G is affine in (y, y', y''), so the three partials predict any change of those arguments exactly |
| Ode2Bvp00.SolutionTaylor | eq/ode2_bvp_00.py:27-35 | the two analytical derivatives are the derivatives of the analytical solution |
| Ode2Bvp00.IndependentOfY | eq/ode2_bvp_00.py:17-18 | G does not depend on y, as its zero y-partial says |

## Left out

- Printing, the `debug` and `verbose` output, the command-line `__main__` blocks and timing are left out; they compute nothing the training returns.
- Random initialisation of v, u and w is left out: the initial snapshot is a parameter of `Train`.
- `sigma.py` is not part of this model. The activation and its derivatives are uninterpreted functions, so every result holds for the logistic sigmoid in particular.
- Floating-point rounding, overflow, NaN and infinity are left out: arithmetic is exact over `real`.
- `ode00c.py` and the other equation modules are not part of this model. Only `eq/ode2_bvp_00.py` is modelled.
- No convergence or accuracy claim (the RMSE the `__main__` blocks print) is modelled: nothing in the code guarantees one.
- Errors.NewtonStep: requires every d2E/dp2 to be non-zero. The source divides without a guard, which under numpy yields inf or NaN. That outcome is not modelled; `Ode1.Epoch` and `Ode2Ivp.Epoch` return `SingularCurvature` instead.
- Network1.NewtonUpdate: requires non-zero curvature, for the same reason as Errors.NewtonStep.
- Ode2Ivp.PointResidual: chains F through its y argument only, as nnode2ivp.py:353-364 does. F also takes dy/dx, but the solver has no dF/d(dy/dx) argument. For an equation whose F depends on dy/dx, the sensitivities miss that term, in the model as in the code.
- Ode2Ivp.ResidualDerivatives, Ode2Ivp.ErrorDerivatives: the reference residual series holds F's dy/dx argument at the snapshot's value, to match the solver's chain rule. They therefore do not show that the sensitivities are derivatives of the true residual d2yt/dx2 - F(x, yt, dyt/dx) when F depends on dy/dx. The solver receives no dF/d(dy/dx) to form the missing term.
- Ode1.Train, Ode2Ivp.Train, Pde2Bvp.Train: the argument checks at nnode1.py:69-75, nnode2ivp.py:88-96 and nnpde2bvp.py:189-199 become preconditions. Checks on callables and tuple lengths are implied by the types.
- Pde2Bvp.Trial, Pde2Bvp.TrialSolution, Pde2Bvp.Residuals, Pde2Bvp.ErrorOf, Pde2Bvp.PointGradients, Pde2Bvp.ParamGradient, Pde2Bvp.ParamGradientSeries, Pde2Bvp.FamilyGradient, Pde2Bvp.Gradient, Pde2Bvp.Epoch, Pde2Bvp.Run, Pde2Bvp.RunFixedPoint, Pde2Bvp.Train, Pde2Bvp.TrainSolved: model the corrected program (see Findings). The y-slope of the trial solution uses the corrected dA/dy, not dA_dyf as used at nnpde2bvp.py:331 and 335. So G, E and dE are evaluated on that corrected slope. dE/dp uses the full chain rule of `Pde2Bvp.PointGradient`, not the accumulation at nnpde2bvp.py:401-413. The formulas as written are `Boundary.AnchorDyAsWritten` and `Pde2Bvp.PointGradientAsWritten`.
- Pde2Bvp.Run: states the shape of the result only. The fixed-point property is stated by `Pde2Bvp.RunFixedPoint`.
- Mixed second derivatives such as d2Yt/dxdy are left out: the PDE solver never forms them.

## Findings

| source | as written | input that shows it | evidently intended | confidence | as-written member | corrected member |
|---|---|---|---|---|---|---|
| nnpde2bvp.py:93 | dA_dyf adds `x*g1f(1)` inside the y = 1 chord term, where Af (line 72) subtracts it | edge data 1 on all four edges at (1/2, 1/2): A is 1 everywhere, so dA/dy is 0, but dA_dyf gives 1 | the same sign as in Af, so that dA_dyf is the y-derivative of Af | not executed | `Boundary.AnchorDyAsWritten`, `Boundary.AnchorDyCounterexample` | `Boundary.AnchorDy`, `Boundary.AnchorTaylorY` |
| nnpde2bvp.py:405-408 | the `+ dG_ddel2Yt*d3Yt_d*dx2` terms of dG_dv and dG_du sit on continuation lines without brackets. Python evaluates them as separate expressions and discards them | Laplace's equation, one unit with the identity activation, v = u = 1 and zero input weights, any interior point: dG/dv = d2P/dx2 + d2P/dy2 < 0 (-1 at the centre), but the code gives 0 | the full chain rule dG_dYt dYt/dp + sum over j of (dG_ddelYt dYt_j' + dG_ddel2Yt dYt_j''), as dG_dw writes it | not executed | `Pde2Bvp.PointGradientAsWritten`, `Pde2Bvp.DroppedBendCounterexample` | `Pde2Bvp.PointGradient`, `Pde2Bvp.PointGradientChain`, `Pde2Bvp.LaplaceGradientExact` |
| nnpde2bvp.py:409-413 | dG_dw[i,j,k] keeps only the terms along axis j, although w[j,k] also moves dYt/dx_i and d2Yt/dx_i^2 along the other axis | the same setting along the x input weight at any interior point: the code exceeds the true dG/dw by -x d2P/dy2 > 0 (1/4 at the centre) | dG/dw summed over both axes, with the other axis's rates x_j times the bias rates | not executed | `Pde2Bvp.PointGradientAsWritten`, `Pde2Bvp.CrossAxisCounterexample` | `Pde2Bvp.PointGradient`, `Pde2Bvp.PointGradientChain` |
