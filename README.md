# OrbSim simulation core in Dafny

This project models the simulation core of OrbSim, a satellite orbit propagator:

- the `Vec3` vector algebra of `math_obj.cpp`;
- the equation system `DESystem` and the two-body equations `orbit_de` of `diff_eq.hpp`;
- the `Integrator` base class: construction, copying, assignment and setters;
- the `integrate()` loops of the Euler, velocity-Verlet and RK4 integrators;
- the `IntegratorFactory`;
- the `Satellite` class, including its conversions between Cartesian state vectors and Keplerian orbital elements (`calc_kepl`, `calc_cart`).

Modules, one per source file:

| module | file | models |
|---|---|---|
| `Numerics` | `numerics.dfy` | constants, the C maths library, IEEE division, double-to-int conversion |
| `Outcomes` | `outcomes.dfy` | optional values, results and exceptions |
| `MathObj` | `math_obj.dfy` | `Vec3`, `CartElem`, `KeplElem` |
| `DiffEq` | `diff_eq.dfy` | `DESystem`, `orbit_de` |
| `EulerScheme`, `VerletScheme`, `RK4Scheme` | `euler.dfy`, `verlet.dfy`, `rk4.dfy` | one step of each scheme |
| `Integrators` | `integrator.dfy` | the `Integrator` class and its shared `integrate()` loop |
| `Bodies` | `celestial_obj.dfy` | `CelestialObj` and `Earth` |
| `Factory` | `integrator_factory.dfy` | `IntegratorFactory` |
| `Satellites` | `satellite.dfy` | `Satellite`, `SimData`, `calc_kepl`, `calc_cart` |

## How the model is built

**Scalars.** Doubles are Dafny `real`s.

**The maths library.** `sqrt`, `acos`, `atan2`, `sin` and `cos` are fields of a `Libm` value, which every member that needs them takes as a parameter. The predicate `Lawful` states the only facts the proofs rely on:

- `sqrt` is the non-negative root;
- `acos` maps [-1, 1] into [0, PI];
- `sin(t)^2 + cos(t)^2 == 1`.

**Division.** Division by zero yields the library's unspecified value (`Quot`), standing for IEEE infinity or NaN. So no operation needs a precondition to avoid a floating-point division by zero. The preconditions the model does add are listed under "Left out".

**Exceptions.** A C++ `throw` becomes a `Failure` result, or a `Some` error returned from a method.

**The three integrators.** Their `integrate()` methods differ only in the body of the loop, so the model has them share one loop. `Integrators.Integrator.Integrate` chooses the scheme's one-step function (`Stepper`) and passes it to `Integrators.Integrator.Trajectory`, which takes it as a parameter. The loop itself is `Integrators.Integrator.RunSteps`. `Integrate` is proved against the specification function `Integrated`.

The loop works in place on the integrator's arrays, as the source does:

- it normalises slot 0;
- it steps slot `i` to slot `i+1`, then rescales slot `i` back to kilometres;
- it rescales the last slot;
- it restores `delta_t`.

The step functions themselves are pure functions in `EulerScheme`, `VerletScheme` and `RK4Scheme`.

**`set_delta_t`.** It divides two `int`s, so the time step it stores is truncated toward zero, for example `(200 - 10) / 99 == 1`. The model keeps this truncation: `TruncatedStep` characterises the result by floor bounds. The `DeltaTSetter` test expects `(200 - 10) / steps`, an integer quotient over `steps` rather than `steps - 1`. With the test's 100 steps both quotients are 1, so its expected value agrees with the code for these inputs, but the two formulas differ for other inputs. The model follows the code.

## Model

| member | source | states |
|---|---|---|
| Numerics.Quot | src/simulation/math_obj.cpp:42-48 | dividing by a non-zero divisor gives the number that, multiplied back by the divisor, yields the dividend |
| Numerics.Clamp | src/simulation/satellite.cpp:163-166 | `std::clamp` lands in `[lo, hi]`: values inside are kept, and values below or above are replaced by the nearer bound |
| Numerics.Trunc | src/simulation/satellite.cpp:31-33 | converting a double to `int` truncates toward zero: the result is within one of the input, on the side of zero |
| Numerics.QuotPositive | src/simulation/integrators/integrator.cpp:41-42 | the quotient of two positive numbers is positive, as the norming constants need |
| Numerics.SqrtOfSquare | src/simulation/math_obj.cpp:70-73 | `sqrt(c*c) == c` for `c >= 0`: the root is unique |
| Numerics.AbsBoundedBySqrt | src/simulation/satellite.cpp:170 | a number whose square is at most `y` is at most `sqrt(y)` in absolute value |
| MathObj.Vec3.Add | src/simulation/math_obj.cpp:11-17 | definition: component-wise sum; properties in `MathObj.SubIsAddNeg` |
| MathObj.Vec3.Sub | src/simulation/math_obj.cpp:19-25 | definition: component-wise difference; properties in `MathObj.SubIsAddNeg` |
| MathObj.Vec3.Neg | src/simulation/math_obj.cpp:27-33 | definition: component-wise negation; properties in `MathObj.SubIsAddNeg`, `MathObj.LenOfNeg` and `MathObj.ScaledNeg` |
| MathObj.Vec3.Mul | src/simulation/math_obj.cpp:107-109 | definition: `v * s`, computed as `s * v`; properties in `MathObj.MulCommutes` and `MathObj.ScaleRoundTrip` |
| MathObj.ScalarMul | src/simulation/math_obj.cpp:99-105 | definition: `s * v`, component-wise; properties in `MathObj.DotOfScaled` and `MathObj.LenOfScaled` |
| MathObj.Vec3.Div | src/simulation/math_obj.cpp:42-48 | definition: each component divided by the scalar; properties in `MathObj.DivIsScaling`, `MathObj.DivIsMulByReciprocal` and `MathObj.LenOfDivided` |
| MathObj.Vec3.Eq | src/simulation/math_obj.cpp:54-63 | definition: every component pair within `EPSILON`; properties in `MathObj.EqIsReflexiveAndSymmetric`, `MathObj.EqIsNotTransitive` and `MathObj.EqualVectorsAreEq` |
| MathObj.Vec3.Neq | src/simulation/math_obj.cpp:65-68 | definition: the negation of `Eq`; properties in `MathObj.EqIsReflexiveAndSymmetric` |
| MathObj.Vec3.Len | src/simulation/math_obj.cpp:70-73 | definition: `sqrt` of the dot product with itself; properties in `MathObj.LenIsRootOfDot` and `MathObj.LenZeroIffZero` |
| MathObj.Vec3.Norm | src/simulation/math_obj.cpp:75-77 | definition: the vector divided by its length; properties in `MathObj.NormHasUnitLength` |
| MathObj.Vec3.Dot | src/simulation/math_obj.cpp:79-81 | definition: the sum of the component products; properties in `MathObj.DotCommutes`, `MathObj.DotSelfNonNegative` and `MathObj.DotSelfPositive` |
| MathObj.Vec3.Cross | src/simulation/math_obj.cpp:83-89 | definition: the cross product formula; properties in `MathObj.CrossAntiCommutes`, `MathObj.CrossIsOrthogonal`, `MathObj.ParallelCrossIsZero` and `MathObj.CrossWithZero` |
| MathObj.Vec3.ToStr | src/simulation/math_obj.cpp:91-97 | definition: `[x  y  z]` with the number format `fmt`; properties in `MathObj.ToStrIsInjective` |
| MathObj.MulAssign | src/simulation/math_obj.cpp:35-40 | `a[i] *= s` scales element `i` and leaves every other element unchanged |
| MathObj.DivAssign | src/simulation/math_obj.cpp:50-52 | `a[i] /= s` multiplies by `1/s`; for `s != 0` this equals `a[i] / s`; every other element is unchanged |
| MathObj.ScaleRoundTrip | src/simulation/math_obj.cpp:35-52 | multiplying by `s` and then by a `q` with `q*s == 1`, in either order, gives the vector back |
| MathObj.SubIsAddNeg | src/simulation/math_obj.cpp:19-33 | `v - w == v + (-w)` |
| MathObj.MulCommutes | src/simulation/math_obj.cpp:99-109 | `v * s == s * v`, and both are the component-wise product |
| MathObj.DivIsMulByReciprocal | src/simulation/math_obj.cpp:42-52 | for `s != 0`, multiplying by `1/s` (what `/=` does) equals `v / s` (what `/` does) |
| MathObj.DivIsScaling | src/simulation/math_obj.cpp:42-48 | `v / s` is `(1/s) * v` |
| MathObj.EqIsReflexiveAndSymmetric | src/simulation/math_obj.cpp:54-67 | the epsilon comparison `==` is reflexive and symmetric, and `!=` is its negation |
| MathObj.EqIsNotTransitive | src/simulation/math_obj.cpp:54-63 | the epsilon comparison is not transitive: it relates 0 to 6e-9 and 6e-9 to 1.2e-8, but not 0 to 1.2e-8 |
| MathObj.EqualVectorsAreEq | src/simulation/math_obj.cpp:54-67 | identical vectors compare equal and not unequal |
| MathObj.DotCommutes | src/simulation/math_obj.cpp:79-81 | the dot product is symmetric |
| MathObj.DotSelfNonNegative | src/simulation/math_obj.cpp:79-81 | `v.dot(v) >= 0` |
| MathObj.DotSelfPositive | src/simulation/math_obj.cpp:79-81 | `v.dot(v) > 0` for every non-zero vector |
| MathObj.LenIsRootOfDot | src/simulation/math_obj.cpp:70-73 | `len()` is non-negative and its square is `v.dot(v)` |
| MathObj.LenZeroIffZero | src/simulation/math_obj.cpp:70-73 | `len()` is zero exactly for the zero vector (both directions) |
| MathObj.NormHasUnitLength | src/simulation/math_obj.cpp:75-77 | `norm()` of a non-zero vector has length 1 |
| MathObj.DotOfScaled | src/simulation/math_obj.cpp:79-81 | scaling by `s` scales the squared length by `s*s` |
| MathObj.LenOfScaled | src/simulation/math_obj.cpp:99-105 | `len(s * v) == abs(s) * len(v)` |
| MathObj.ScaledRoot | src/simulation/math_obj.cpp:99-105 | if `l` is the length of `v`, then `abs(s) * l` is the length of `s * v` |
| MathObj.LenOfNeg | src/simulation/math_obj.cpp:27-33 | negation keeps the length |
| MathObj.LenOfDivided | src/simulation/math_obj.cpp:42-48 | `len(v / c) == abs(1/c) * len(v)` for `c != 0` |
| MathObj.CrossAntiCommutes | src/simulation/math_obj.cpp:83-89 | `a x b == -(b x a)` |
| MathObj.ParallelCrossIsZero | src/simulation/math_obj.cpp:83-89 | the cross product of parallel vectors is zero |
| MathObj.CrossWithZero | src/simulation/math_obj.cpp:83-89 | the cross product with the zero vector is zero |
| MathObj.ScaledNeg | src/simulation/math_obj.cpp:27-33 | `k * (-v) == (-k) * v` |
| MathObj.CrossIsOrthogonal | src/simulation/math_obj.cpp:83-89 | `a x b` is orthogonal to both `a` and `b` |
| MathObj.ToStrIsInjective | src/simulation/math_obj.cpp:91-97 | if the number formatting never produces a space, equal `to_str()` texts come from components with equal formatted texts |
| DiffEq.DESystem.GetRhs | src/simulation/diff_eq.hpp:29-31 | definition: the equation at position `order`; properties in `DiffEq.DESystem.AddEq` |
| DiffEq.Accel | src/simulation/diff_eq.hpp:40 | definition: `-x / len(x)^3`; properties in `DiffEq.InverseSquareLaw`, `DiffEq.AccelPointsInward` and `DiffEq.AccelIsCentral` |
| DiffEq.DESystem.constructor | src/simulation/diff_eq.hpp:22 | stores the given equation list |
| DiffEq.DESystem.AddEq | src/simulation/diff_eq.hpp:24-31 | inserts `f` at position `order`: afterwards `get_rhs(order)` is `f`, earlier equations keep their positions, and later ones move up by one |
| DiffEq.OrbitEquations | src/simulation/diff_eq.hpp:37-41 | `orbit_de` has three equations, so orders 0 to 2 are valid; entry 1 is the identity (`dx/dt = v`) and entry 2 is the acceleration `Accel` |
| DiffEq.LenCubePositive | src/simulation/diff_eq.hpp:40 | the denominator `len(x)^3` is positive for every non-zero position |
| DiffEq.InverseSquareLaw | src/simulation/diff_eq.hpp:40 | the acceleration has magnitude `1 / len(x)^2` (normalised units) |
| DiffEq.AccelPointsInward | src/simulation/diff_eq.hpp:40 | the acceleration points toward the origin: `a.dot(x) * len(x) == -1` |
| DiffEq.AccelIsCentral | src/simulation/diff_eq.hpp:40 | the acceleration is parallel to the position (its cross product with it is zero) |
| EulerScheme.Step | src/simulation/integrators/euler.cpp:27-28 | definition: one Euler step; properties in `EulerScheme.ZeroStepIsIdentity`, `EulerScheme.OrbitStep` and `EulerScheme.UniformAccelerationError` |
| EulerScheme.ZeroStepIsIdentity | src/simulation/integrators/euler.cpp:27-28 | an Euler step of length 0 changes nothing |
| EulerScheme.OrbitStep | src/simulation/integrators/euler.cpp:27-28 | with `orbit_de`, the step is `x + v h`, `v + a(x) h` |
| EulerScheme.UniformAccelerationError | src/simulation/integrators/euler.cpp:27-28 | under constant acceleration, the Euler velocity is exact and the position misses exactly `a h^2 / 2` |
| VerletScheme.Step | src/simulation/integrators/verlet.cpp:27-29 | definition: one velocity Verlet step; properties in `VerletScheme.ZeroStepIsIdentity`, `VerletScheme.OrbitStep` and `VerletScheme.ExactForUniformAcceleration` |
| VerletScheme.ZeroStepIsIdentity | src/simulation/integrators/verlet.cpp:27-29 | a Verlet step of length 0 changes nothing |
| VerletScheme.OrbitStep | src/simulation/integrators/verlet.cpp:27-29 | with `orbit_de`, the position is the Taylor step `x + v h + a(x) h^2/2`, and the velocity averages the accelerations at the old and new positions |
| DiffEq.DriftWithHalfKick | src/simulation/integrators/verlet.cpp:27-28 | drifting with the half-kicked velocity is the second-order Taylor step |
| VerletScheme.ExactForUniformAcceleration | src/simulation/integrators/verlet.cpp:27-29 | under constant acceleration, the Verlet step equals the exact motion |
| RK4Scheme.Weighted | src/simulation/integrators/rk4.cpp:57-58 | definition: `(k0 + 2 k1 + 2 k2 + k3) / 6`; properties in `RK4Scheme.WeightedOfEqual` |
| RK4Scheme.Step | src/simulation/integrators/rk4.cpp:35-58 | definition: one RK4 step; properties in `RK4Scheme.ZeroStepIsIdentity` and `RK4Scheme.ExactForUniformAcceleration` |
| RK4Scheme.WeightedOfEqual | src/simulation/integrators/rk4.cpp:57-58 | the weights 1/6, 2/6, 2/6, 1/6 sum to one: four equal slopes combine to that slope |
| RK4Scheme.ZeroStepIsIdentity | src/simulation/integrators/rk4.cpp:35-58 | an RK4 step of length 0 changes nothing |
| RK4Scheme.ExactForUniformAcceleration | src/simulation/integrators/rk4.cpp:35-58 | under constant acceleration, the RK4 step equals the exact motion |
| Integrators.DimsFor | src/simulation/integrators/integrator.cpp:40-42 | definition: the norming constants `R_dim`, `V_dim` and `T_dim`; properties in `Integrators.DimsArePositive` |
| Integrators.DimsArePositive | src/simulation/integrators/integrator.cpp:40-42 | for a positive mass and radius, the norming constants are positive; `T_dim * V_dim == R_dim`; and `V_dim` is the circular speed: `(1000 V)^2 (1000 R0) == M G` |
| Integrators.DenormaliseUndoesNormalise | src/simulation/integrators/euler.cpp:22-32 | rescaling back to kilometres undoes the normalisation (non-zero `R_dim`, `V_dim`) |
| Integrators.NormaliseUndoesDenormalise | src/simulation/integrators/euler.cpp:22-32 | normalising undoes the rescaling |
| Integrators.IntegratedStartsAtInitialState | src/simulation/integrators/euler.cpp:22-37 | the trajectory starts at the initial state |
| Integrators.IntegratedRecurrence | src/simulation/integrators/euler.cpp:26-33 | consecutive states, in normalised units, are related by one step of the scheme with step `delta_t / T_dim` |
| Integrators.IntegrateTwiceIsIntegrateOnce | src/simulation/integrators/euler.cpp:19-40 | integrating again from the restored slot 0 and `delta_t` gives the same trajectory |
| Integrators.ConstructionError | src/simulation/integrators/integrator.cpp:16-31 | construction fails exactly unless `0 <= t_i < t_f` and `steps > 0`; a negative count fails in the array allocation before any check; a negative start fails with the start-time message |
| Integrators.DeltaTError | src/simulation/integrators/integrator.cpp:92-101 | `set_delta_t` rejects exactly the pairs outside `0 <= t_start < t_end`; the third check is never the one that fires |
| Integrators.TruncatedStep | src/simulation/integrators/integrator.cpp:102 | the stored step is a non-negative whole number `q` with `q (steps-1) <= t_end - t_start < (q+1) (steps-1)`: integer division |
| Integrators.TruncatedStepExamples | test/simulation/integrators/integrator_test.cpp:98-104 | `set_delta_t(10, 200)` with 100 steps stores 1, and a span of 10 over 99 intervals stores 0 |
| Integrators.CopyPrefix | src/simulation/integrators/integrator.cpp:47-56 | a fresh array holding the first `n` elements of the source |
| Integrators.Integrator.constructor | src/simulation/integrators/integrator.cpp:13-43 | arrays of `steps` elements with the initial state in slot 0; `M`, `R0` and `delta_t = (t_f - t_i)/(steps - 1)` stored; norming constants computed |
| Integrators.Integrator.Make | src/simulation/integrators/integrator.cpp:13-43 | fails with exactly the error `ConstructionError` names, or returns a fresh, initialised integrator |
| Integrators.Integrator.Copy | src/simulation/integrators/integrator.cpp:45-57 | fresh arrays of `other.steps` elements holding `other`'s first `steps` elements; the other copied fields are equal |
| Integrators.Integrator.Assign | src/simulation/integrators/integrator.cpp:59-71 | after assignment, every copied field equals the old value in `other`, and the arrays are fresh copies of its first `steps` elements |
| Integrators.Integrator.SetSteps | src/simulation/integrators/integrator.cpp:85-90 | a positive count is stored; zero or a negative count is rejected with the steps message and leaves `steps` unchanged |
| Integrators.Integrator.SetDeltaT | src/simulation/integrators/integrator.cpp:92-103 | the error is `DeltaTError`; on error `delta_t` is unchanged; otherwise it is `TruncatedStep` |
| Integrators.Integrator.SetX0 | src/simulation/integrators/integrator.cpp:105-107 | only slot 0 of the position array changes, to `x0` |
| Integrators.Integrator.SetV0 | src/simulation/integrators/integrator.cpp:109-111 | only slot 0 of the velocity array changes, to `v0` |
| Integrators.Integrator.NormaliseFirst | src/simulation/integrators/euler.cpp:22-24 | slot 0 becomes its normalised state; other slots are unchanged |
| Integrators.Integrator.DenormaliseSlot | src/simulation/integrators/euler.cpp:31-32 | slot `i` is rescaled to kilometres; other slots are unchanged |
| Integrators.Integrator.StepSlot | src/simulation/integrators/euler.cpp:27-32 | slot `i+1` becomes the step from slot `i`, then slot `i` is rescaled; nothing else changes |
| Integrators.Integrator.RunSteps | src/simulation/integrators/euler.cpp:26-33 | after the loop, slot `j` holds the rescaled `j`-th iterate for `j < steps-1`, and the last slot holds the unrescaled last iterate |
| Integrators.Integrator.Trajectory | src/simulation/integrators/euler.cpp:22-37 | with the step already normalised, every slot below `steps` ends up holding the rescaled iterate of the step from the normalised start; later slots are untouched |
| Integrators.Integrator.Integrate | src/simulation/integrators/rk4.cpp:19-70 | the first `steps` slots hold `Integrated(...)`, the trajectory from the old slot 0; later slots are untouched; `delta_t` is restored (exactly when `T_dim != 0`); slot 0 is kept when `R_dim` and `V_dim` are non-zero; the same holds for euler.cpp:19-40 and verlet.cpp:19-41 |
| Factory.NameOf | src/simulation/integrators/integrator_factory.cpp:20-25 | definition: the name each scheme is selected by; properties in `Factory.KindOfNameOf` |
| Factory.KindOf | src/simulation/integrators/integrator_factory.cpp:19-28 | a name selects a scheme exactly when it is "Euler", "Verlet" or "RK4", and that scheme's name is the input |
| Factory.KindOfNameOf | src/simulation/integrators/integrator_factory.cpp:19-28 | names and schemes correspond one to one (both directions) |
| Factory.NamesAreCaseSensitive | src/simulation/integrators/integrator_factory.cpp:20-24 | "euler", "VERLET" and "rk4" are rejected: names are case-sensitive |
| Factory.IntegratorFactory.Create | src/simulation/integrators/integrator_factory.cpp:19-29 | an unknown name fails with the "Invalid integrator!" message; a known name fails exactly with the integrator constructor's error, or yields a fresh integrator of that kind, built from the factory's body, initial state and times |
| Factory.CreateForTests | test/simulation/integrators/integrator_factory_test.cpp:11-51 | with the tests' parameters, every known name succeeds with an integrator of that kind, 100 steps and the given initial state |
| Satellites.EccAnomaly | src/simulation/satellite.cpp:229 | definition: `E = 2 atan2(sqrt(1-e) sin(ni/2), sqrt(1+e) cos(ni/2))`; used by `Satellites.CalcCartDistance` |
| Satellites.Distance | src/simulation/satellite.cpp:235 | definition: `r = a (1 - e cos E)` in metres; properties in `Satellites.OrbitalFramePosLength` and `Satellites.CalcCartDistance` |
| Satellites.CalcCart | src/simulation/satellite.cpp:209-264 | definition: `calc_cart`; properties in `Satellites.CalcCartDistance` and `Satellites.CalcCartInPlane` |
| Satellites.PrepVectors | src/simulation/satellite.cpp:146-162 | the position and velocity (in metres) are orthogonal to the momentum `h`; the node vector `n` lies in the equatorial plane and is orthogonal to `h` |
| Satellites.FullAngle | src/simulation/satellite.cpp:163-166 | the angle is in `[0, 2 PI]`, in the first half when the sign test holds and in the second half otherwise |
| Satellites.CalcKepl | src/simulation/satellite.cpp:139-207 | the eccentricity is non-negative, and the true anomaly, the right ascension of the ascending node and the argument of periapsis are in `[0, 2 PI]` |
| Satellites.CalcKeplHalves | src/simulation/satellite.cpp:163-187 | each angle is in `[0, PI]` when its sign test (`r.v`, `n.y`, `e.z` non-negative) holds, and in `[PI, 2 PI]` otherwise |
| Satellites.RatioInUnitRange | src/simulation/satellite.cpp:170 | a quotient whose numerator is bounded by the positive denominator lies in `[-1, 1]` |
| Satellites.InclinationInRange | src/simulation/satellite.cpp:170 | for a non-zero momentum vector, the inclination is in `[0, PI]` without clamping |
| Satellites.Transform | src/simulation/satellite.cpp:254-260 | the rotation to the inertial frame maps an in-plane vector to `o.x P + o.y Q`, with the columns `P` and `Q` |
| Satellites.ColumnPIsUnit | src/simulation/satellite.cpp:256-258 | the first rotation column has unit length |
| Satellites.ColumnQIsUnit | src/simulation/satellite.cpp:256-258 | the second rotation column has unit length |
| Satellites.ColumnsAreOrthogonal | src/simulation/satellite.cpp:256-258 | the two rotation columns are orthogonal |
| Satellites.ColumnsInPlane | src/simulation/satellite.cpp:256-258 | both columns are orthogonal to the orbit-plane normal `(sin i sin OM, -sin i cos OM, cos i)` |
| Satellites.TransformKeepsLength | src/simulation/satellite.cpp:254-260 | the transformation keeps the length of every vector in the orbital plane |
| Satellites.OrbitalFrame | src/simulation/satellite.cpp:239-250 | the orbital-frame position and velocity lie in the orbital plane (`z == 0`) |
| Satellites.OrbitalFramePosLength | src/simulation/satellite.cpp:229-243 | the orbital-frame position has length `abs(r)`, where `r = a (1 - e cos E)` |
| Satellites.CalcCartDistance | src/simulation/satellite.cpp:209-264 | the resulting position, in kilometres, lies at distance `abs(a (1 - e cos E))` (in metres) from the central body |
| Satellites.CalcCartInPlane | src/simulation/satellite.cpp:209-264 | the resulting position and velocity both lie in the plane set by the inclination and the ascending node |
| Satellites.ScaledIsInPlane | src/simulation/satellite.cpp:262-263 | dividing by 1000 keeps a vector in the plane |
| Satellites.BuildIntegrator | src/simulation/satellite.cpp:30-36 | an unknown name calls an empty `std::function` (bad function call); a known one fails exactly with the constructor's error, or yields a fresh integrator of that kind from the satellite's state |
| Satellites.Satellite.Init | src/simulation/satellite.cpp:22-26 | stores every field as given |
| Satellites.Satellite.FromCart | src/simulation/satellite.cpp:22-37 | fails exactly for an unknown name (with `bad_function_call`) or a rejected time range (with the integrator constructor's error); otherwise the Keplerian elements are `calc_kepl` of the state, and the integrator is new, with new arrays, of the named kind, initialised from the state |
| Satellites.Satellite.FromKepl | src/simulation/satellite.cpp:39-54 | fails under the same conditions and with the same errors; otherwise the state is `calc_cart` of the elements, and the integrator starts from it |
| Satellites.Satellite.Default | src/simulation/satellite.hpp:31-34 | the default satellite is built: RK4, from time 0 to 86400 in 8640 steps, the default state vectors, the Earth, and an RK4 integrator initialised from that state; the satellite, its integrator and the integrator's arrays are new |
| Satellites.Satellite.Copy | src/simulation/satellite.cpp:56-60 | copies every field and gives the copy its own copy of the integrator: the same kind, step count, step, mass, radius and first `steps` slots of all three arrays, held in new arrays |
| Satellites.Satellite.SetCartElem | src/simulation/satellite.cpp:89-92 | stores the state and recomputes the elements; nothing else changes |
| Satellites.Satellite.SetKeplElem | src/simulation/satellite.cpp:94-97 | stores the elements and recomputes the state; nothing else changes |
| Satellites.Satellite.Assign | src/simulation/satellite.cpp:62-74 | takes every field of `other`, with its own copy of the integrator, as the copy constructor does |
| Satellites.Satellite.SetTStart | src/simulation/satellite.cpp:99-102 | stores the start even when the integrator then rejects it; the integrator's step is recomputed from the start and the end truncated to `int` |
| Satellites.Satellite.SetTEnd | src/simulation/satellite.cpp:104-107 | stores the end, then recomputes the integrator's step in the same way |
| Satellites.Satellite.SetTSteps | src/simulation/satellite.cpp:109-114 | a positive count is stored in both places; a non-positive one changes neither and is rejected by the integrator |
| Satellites.Satellite.SetInteg | src/simulation/satellite.cpp:116-127 | stores the name; on failure the old integrator is gone (`null`); otherwise a fresh integrator, with fresh arrays, of the named kind from the current state and times; the error is `bad_function_call` for an unknown name and the constructor's error otherwise |
| Satellites.Satellite.Propagate | src/simulation/satellite.cpp:129-137 | runs the integrator and returns its count and arrays: the first `steps` slots hold the trajectory from the old slot 0, later slots are untouched, `delta_t` is restored (exactly when `T_dim != 0`), and slot 0 is kept when `R_dim` and `V_dim` are non-zero, so propagating again gives the same trajectory |

## Left out

- **Outside the simulation core.** The GUI, the command-line front end and `save_to_file` (file output) are not modelled.
- **Floating point.** Rounding, overflow, infinities and NaN are not modelled: scalars are exact reals, and a division by zero yields an unspecified real. So nothing is claimed about numerical accuracy. In particular, the integration properties are about the exact step functions.
- **The maths library.** `sqrt`, `acos`, `atan2`, `sin` and `cos` are parameters. Only the facts in `Lawful` are assumed about them.
- **Memory management.** Destructors, `delete` and the ownership of heap objects are not modelled. This covers the temporary that `Integrator::operator=` allocates and never frees, and the copy constructors' `copy()` being virtual. The model has one `Integrator` class and a `Kind` field in place of the three subclasses.
- **Out-of-range accesses.** `set_steps` does not reallocate the arrays, so a larger count makes `integrate()` and the copies read or write past the end of the arrays. The source does not guard this case, and the model requires `steps <=` the array length where it matters, as the lines below say.
- Integrators.Integrator.Integrate: requires `steps <=` the length of the arrays, which `set_steps` can break.
- Integrators.Integrator.Copy: requires `steps <=` the length of `other`'s arrays, for the same reason.
- Integrators.Integrator.Assign: requires `steps <=` the length of `other`'s arrays, for the same reason.
- Satellites.Satellite.Copy: requires `steps <=` the length of the other integrator's arrays, for the same reason.
- Satellites.Satellite.Assign: requires `steps <=` the length of the other integrator's arrays, for the same reason.
- Satellites.Satellite.Propagate: requires `steps <=` the length of the integrator's arrays, for the same reason.
- Integrators.Integrator.SetDeltaT: requires `steps != 1` when the times are valid, because `set_delta_t` then divides an integer by zero, which is undefined behaviour.
- Satellites.Satellite.SetTStart: requires `steps != 1` when the times are valid, for the same reason.
- Satellites.Satellite.SetTEnd: requires `steps != 1` when the times are valid, for the same reason.
- **`time_arr`.** It is allocated and copied, but it is never filled with times, and the model leaves it so.
- Integrators.Integrator.Copy: the copy constructor does not copy `R_dim`, `V_dim` and `T_dim`, so in the model they are unconstrained in the copy. No ensures is stated about them.
- Integrators.Integrator.Assign: `operator=` does not swap the norming constants either, so they keep their previous values. The model leaves them as they were.
- **The equation system.** The factory (`integrator_factory.cpp:21-25`) and the satellite (`satellite.cpp:31-33`) call 7-argument integrator constructors without a `DESystem`. `verlet.hpp` and `rk4.hpp` declare that form, but `euler.hpp` does not, and `euler.cpp`, `verlet.cpp` and `rk4.cpp` define only the form that takes a `DESystem`. So the callers' constructor does not exist as written. The model supplies `orbit_de` (`OrbitEquations`) at those call sites, and keeps the `DESystem` parameter of the integrator constructor.
- **Getters.** The getters of `Integrator` and `Satellite` are plain field reads, which the model's public fields stand in for.
- **`Vec3::to_str`.** Digit formatting (fixed, eight decimals) is the parameter `fmt`.
- **Satellite constructors.** `satellite.hpp` declares `t_steps` as `int`, while `satellite.cpp` takes a `double`. The model follows the header and takes an `int`, which is then stored as a double.
- Satellites.Satellite.SetInteg: after a failed `set_integ`, the source keeps referring to the deleted integrator. The model sets the integrator to `null`.
- DiffEq.AccelIsCentral: at the origin `orbit_de` divides zero by zero, so the source's acceleration there is NaN. The model's claim at the origin holds only because division by zero yields some real number here. It is a statement about the program only for a non-zero position.
- Satellites.CalcKepl: for an equatorial orbit (`n` is zero) the source's ascending node and argument of periapsis are NaN, because `std::clamp` passes NaN through. The same holds for a circular orbit (`e` is zero), for the true anomaly and the argument of periapsis, and for a zero position. The model's division by zero yields some real number, which `Clamp` then forces into `[-1, 1]`. So the ranges are a statement about the program only when `n`, `e` and `r` are non-zero.
- Satellites.CalcKeplHalves: the same degenerate states give NaN angles in the source. For them, the half-range claims hold only of the model's unspecified division by zero.
- Satellites.CalcKepl: no range is stated for the semi-major axis, because it can be negative (hyperbolic orbits) or undefined (parabolic ones). The inclination's range is stated separately in `Satellites.InclinationInRange`, for a non-zero momentum.
- Satellites.CalcCartDistance: stated about the computed anomaly `E`. No claim is made that `E` solves Kepler's equation, because `atan2` is only a parameter here.
- **Conversion round trip.** That `calc_cart(calc_kepl(s)) == s` is not proved. It needs inverse trigonometric identities beyond `Lawful`.
