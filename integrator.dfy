/**
 * The integrator base class of integrator.cpp and the `integrate()` loops of
 * euler.cpp, verlet.cpp and rk4.cpp.
 *
 * The three subclasses run the same loop and differ only in how one step is
 * taken, so the model has one `Integrate` method that dispatches on `kind`
 * to `Advance`. The loop works in dimensionless units: it divides the
 * initial state and the time step by the norming constants, steps, and
 * multiplies every slot back as soon as the next one has been computed.
 */
module Integrators {
  import opened Numerics
  import opened Outcomes
  import opened MathObj
  import opened DiffEq
  import EulerScheme
  import VerletScheme
  import RK4Scheme

  /** Which subclass of `Integrator` an object is. */
  datatype Kind = Euler | Verlet | RK4

  /** One step of the subclass's `integrate()` loop, in dimensionless units. */
  function Advance(kind: Kind, m: Libm, eqs: seq<Vec3 -> Vec3>, s: CartElem, h: real): CartElem
    requires |eqs| > 2
  {
    match kind
    case Euler => EulerScheme.Step(eqs, s, h)
    case Verlet => VerletScheme.Step(eqs, s, h)
    case RK4 => RK4Scheme.Step(m, eqs, s, h)
  }

  /** One step of length `h` as a function of the state. */
  function Stepper(kind: Kind, m: Libm, eqs: seq<Vec3 -> Vec3>, h: real): CartElem -> CartElem
    requires |eqs| > 2
  {
    s => Advance(kind, m, eqs, s, h)
  }

  /** The state after `i` applications of `step` to `s0`. */
  function Iterate(step: CartElem -> CartElem, s0: CartElem, i: nat): CartElem {
    if i == 0 then s0 else step(Iterate(step, s0, i - 1))
  }

  /** The dimensionless state after `i` steps of length `h` from `s0`. */
  function Orbit(kind: Kind, m: Libm, eqs: seq<Vec3 -> Vec3>, s0: CartElem, h: real, i: nat): CartElem
    requires |eqs| > 2
  {
    Iterate(Stepper(kind, m, eqs, h), s0, i)
  }

  /** The norming constants `R_dim` [km], `V_dim` [km/s] and `T_dim` [s]. */
  datatype Dims = Dims(r: real, v: real, t: real)

  /**
   * The norming constants the constructor derives from the central mass `M`
   * and the reference radius `R0`.
   */
  function DimsFor(m: Libm, M: real, R0: real): Dims {
    var v := m.sqrt(Quot(m, M * G, 1000.0 * R0)) / 1000.0;
    Dims(R0, v, Quot(m, R0, v))
  }

  /**
   * For a positive central mass and reference radius the norming constants
   * are positive, `T_dim * V_dim == R_dim`, and `V_dim` is the speed of a
   * circular orbit of radius `R0`: `(1000 V_dim)^2 == M G / (1000 R0)` in
   * metres and seconds.
   */
  lemma DimsArePositive(m: Libm, M: real, R0: real)
    requires Lawful(m) && 0.0 < M && 0.0 < R0
    ensures DimsFor(m, M, R0).r == R0
    ensures 0.0 < DimsFor(m, M, R0).v && 0.0 < DimsFor(m, M, R0).t
    ensures DimsFor(m, M, R0).t * DimsFor(m, M, R0).v == R0
    ensures (1000.0 * DimsFor(m, M, R0).v) * (1000.0 * DimsFor(m, M, R0).v) * (1000.0 * R0) == M * G
  {
    ProductPositive(M, G);
    var q := Quot(m, M * G, 1000.0 * R0);
    QuotPositive(m, M * G, 1000.0 * R0);
    var s := m.sqrt(q);
    SqrtPositive(m, q);
    assert s * s == q;
    var v := s / 1000.0;
    assert DimsFor(m, M, R0).v == v;
    assert 1000.0 * v == s;
    QuotPositive(m, R0, v);
    assert q * (1000.0 * R0) == M * G;
  }

  /** `pos /= R_dim` and `vel /= V_dim`; each `/=` multiplies by the reciprocal. */
  function Normalise(m: Libm, d: Dims, s: CartElem): CartElem {
    CartElem(s.pos.Mul(Quot(m, 1.0, d.r)), s.vel.Mul(Quot(m, 1.0, d.v)))
  }

  /** `pos *= R_dim` and `vel *= V_dim`. */
  function Denormalise(d: Dims, s: CartElem): CartElem {
    CartElem(s.pos.Mul(d.r), s.vel.Mul(d.v))
  }

  /**
   * The contents of the first `n` slots after `integrate()` from the initial
   * state `s0` with time step `dt`: slot `j` holds the `j`-th dimensionless
   * state, converted back to kilometres and km/s.
   */
  function Integrated(kind: Kind, m: Libm, eqs: seq<Vec3 -> Vec3>, d: Dims, s0: CartElem, dt: real, n: nat): seq<CartElem>
    requires |eqs| > 2
  {
    seq(n, j requires 0 <= j < n =>
      Denormalise(d, Orbit(kind, m, eqs, Normalise(m, d, s0), Quot(m, dt, d.t), j)))
  }

  /** Slot `j` of `Integrated` is the `j`-th dimensionless state, denormalised. */
  lemma IntegratedAt(kind: Kind, m: Libm, eqs: seq<Vec3 -> Vec3>, d: Dims, s0: CartElem, dt: real, n: nat, j: nat)
    requires |eqs| > 2 && j < n
    ensures Integrated(kind, m, eqs, d, s0, dt, n)[j]
      == Denormalise(d, Iterate(Stepper(kind, m, eqs, Quot(m, dt, d.t)), Normalise(m, d, s0), j))
  {
  }

  /** Converting to dimensionless units and back gives the state back. */
  lemma DenormaliseUndoesNormalise(m: Libm, d: Dims, s: CartElem)
    requires d.r != 0.0 && d.v != 0.0
    ensures Denormalise(d, Normalise(m, d, s)) == s
  {
    ScaleRoundTrip(s.pos, d.r, Quot(m, 1.0, d.r));
    ScaleRoundTrip(s.vel, d.v, Quot(m, 1.0, d.v));
  }

  /** Converting to physical units and back gives the state back. */
  lemma NormaliseUndoesDenormalise(m: Libm, d: Dims, s: CartElem)
    requires d.r != 0.0 && d.v != 0.0
    ensures Normalise(m, d, Denormalise(d, s)) == s
  {
    ScaleRoundTrip(s.pos, d.r, Quot(m, 1.0, d.r));
    ScaleRoundTrip(s.vel, d.v, Quot(m, 1.0, d.v));
  }

  /** With non-zero norming constants, slot 0 keeps the initial state. */
  lemma IntegratedStartsAtInitialState(kind: Kind, m: Libm, eqs: seq<Vec3 -> Vec3>, d: Dims, s0: CartElem, dt: real, n: nat)
    requires |eqs| > 2 && 0 < n && d.r != 0.0 && d.v != 0.0
    ensures Integrated(kind, m, eqs, d, s0, dt, n)[0] == s0
  {
    IntegratedAt(kind, m, eqs, d, s0, dt, n, 0);
    DenormaliseUndoesNormalise(m, d, s0);
  }

  /**
   * Each slot after the first is one step of the scheme after the slot before
   * it, in dimensionless units with the dimensionless time step.
   */
  lemma IntegratedRecurrence(kind: Kind, m: Libm, eqs: seq<Vec3 -> Vec3>, d: Dims, s0: CartElem, dt: real, n: nat, j: nat)
    requires |eqs| > 2 && j + 1 < n && d.r != 0.0 && d.v != 0.0
    ensures Normalise(m, d, Integrated(kind, m, eqs, d, s0, dt, n)[j + 1])
      == Advance(kind, m, eqs, Normalise(m, d, Integrated(kind, m, eqs, d, s0, dt, n)[j]), Quot(m, dt, d.t))
  {
    var step := Stepper(kind, m, eqs, Quot(m, dt, d.t));
    var start := Normalise(m, d, s0);
    IntegratedAt(kind, m, eqs, d, s0, dt, n, j);
    IntegratedAt(kind, m, eqs, d, s0, dt, n, j + 1);
    NormaliseUndoesDenormalise(m, d, Iterate(step, start, j));
    NormaliseUndoesDenormalise(m, d, Iterate(step, start, j + 1));
  }

  /**
   * Calling `integrate()` a second time, on the slot 0 and the time step the
   * first call left behind, fills the slots with the same trajectory.
   */
  lemma IntegrateTwiceIsIntegrateOnce(kind: Kind, m: Libm, eqs: seq<Vec3 -> Vec3>, d: Dims, s0: CartElem, dt: real, n: nat)
    requires |eqs| > 2 && 0 < n && d.r != 0.0 && d.v != 0.0 && d.t != 0.0
    ensures Integrated(kind, m, eqs, d, Integrated(kind, m, eqs, d, s0, dt, n)[0], Quot(m, dt, d.t) * d.t, n)
         == Integrated(kind, m, eqs, d, s0, dt, n)
  {
    IntegratedStartsAtInitialState(kind, m, eqs, d, s0, dt, n);
    assert Quot(m, dt, d.t) * d.t == dt;
  }

  /** A fresh array holding the first `n` elements of `a`, as the copy constructor's `new` and loop build. */
  method CopyPrefix<T>(a: array<T>, n: int, init: T) returns (b: array<T>)
    requires 0 <= n <= a.Length
    ensures fresh(b) && b[..] == a[..n]
  {
    b := new T[n](_ => init);
    for i := 0 to n
      invariant b[..i] == a[..i]
    {
      b[i] := a[i];
    }
    assert b[..] == b[..n];
  }

  /**
   * The exception the constructor raises, if any. `new T[steps]` runs before
   * the checks, so a negative count fails with `bad_array_new_length` before
   * any of the four domain checks, which follow in the source's order.
   */
  function ConstructionError(tI: real, tF: real, steps: int): (e: Option<Error>)
    ensures e == None <==> 0.0 <= tI < tF && 0 < steps
    ensures steps < 0 ==> e == Some(BadArrayNewLength)
    ensures 0 <= steps && tI < 0.0 ==> e == Some(DomainError("Start time must be a positive integer!"))
  {
    if steps < 0 then Some(BadArrayNewLength)
    else if tI < 0.0 then Some(DomainError("Start time must be a positive integer!"))
    else if tF <= 0.0 then Some(DomainError("End time must be a positive integer!"))
    else if tI >= tF then Some(DomainError("Start time must be smaller than end time!"))
    else if steps <= 0 then Some(DomainError("Steps must be a positive integer!"))
    else None
  }

  /** The exception `set_delta_t` raises, if any; its third check can never fire. */
  function DeltaTError(tStart: int, tEnd: int): (e: Option<Error>)
    ensures e == None <==> 0 <= tStart < tEnd
    ensures e != Some(DomainError("End time must be larger than start time!"))
  {
    if tStart < 0 then Some(DomainError("Start time must be a positive integer!"))
    else if tStart >= tEnd then Some(DomainError("Start time must be smaller than end time!"))
    else if tEnd <= tStart then Some(DomainError("End time must be larger than start time!"))
    else None
  }

  /**
   * The time step `set_delta_t` stores: the C++ `int` quotient, converted to
   * `double`. The quotient is the whole number of time units per interval,
   * so the `steps - 1` intervals fall short of `t_end - t_start` by less
   * than one interval's worth of units.
   */
  function TruncatedStep(tStart: int, tEnd: int, steps: int): (r: real)
    requires tStart < tEnd && 2 <= steps
    ensures r == r.Floor as real && 0.0 <= r
    ensures r * (steps - 1) as real <= (tEnd - tStart) as real < (r + 1.0) * (steps - 1) as real
  {
    ((tEnd - tStart) / (steps - 1)) as real
  }

  /**
   * The truncation can lose most of the interval: 190 time units over 99
   * intervals give a step of 1, and 10 units over 99 intervals a step of 0.
   */
  lemma TruncatedStepExamples()
    ensures TruncatedStep(10, 200, 100) == 1.0
    ensures TruncatedStep(0, 10, 100) == 0.0
  {
  }

  /** The message of every rejected step count. */
  const StepsMessage: string := "Steps must be a positive integer!"

  /**
   * An `Integrator` together with its subclass. The equation system is held
   * by value, as the C++ member is; the three arrays are owned by the object.
   */
  class Integrator {
    const libm: Libm
    const kind: Kind
    const dims: Dims
    var equations: seq<Vec3 -> Vec3>
    var M: real
    var R0: real
    var timeArr: array<real>
    var posArr: array<Vec3>
    var velArr: array<Vec3>
    var steps: int
    var deltaT: real

    /** The step count is positive and the three arrays have one common, non-zero length. */
    ghost predicate Valid()
      reads this
    {
      && 1 <= steps
      && 1 <= posArr.Length
      && timeArr.Length == posArr.Length == velArr.Length
      && posArr != velArr
    }

    /** The state the constructor leaves behind. */
    ghost predicate Initialised(m: Libm, kind: Kind, equations: seq<Vec3 -> Vec3>, M: real, R0: real,
                                x0: Vec3, v0: Vec3, tI: real, tF: real, n: int)
      reads this, timeArr, posArr, velArr
    {
      && 1 <= n
      && libm == m && this.kind == kind && this.equations == equations
      && this.M == M && this.R0 == R0 && dims == DimsFor(m, M, R0)
      && steps == n && deltaT == Quot(m, tF - tI, (n - 1) as real)
      && posArr[..] == [x0] + seq(n - 1, _ => Zero)
      && velArr[..] == [v0] + seq(n - 1, _ => Zero)
      && timeArr[..] == seq(n, _ => 0.0)
    }

    /** The constructor on arguments it accepts. */
    constructor (m: Libm, kind: Kind, equations: seq<Vec3 -> Vec3>, M: real, R0: real,
                 x0: Vec3, v0: Vec3, tI: real, tF: real, steps: int)
      requires ConstructionError(tI, tF, steps) == None
      ensures Valid() && fresh(timeArr) && fresh(posArr) && fresh(velArr)
      ensures Initialised(m, kind, equations, M, R0, x0, v0, tI, tF, steps)
    {
      var t := new real[steps](_ => 0.0);
      var p := new Vec3[steps](_ => Zero);
      var v := new Vec3[steps](_ => Zero);
      p[0] := x0;
      v[0] := v0;
      libm := m;
      this.kind := kind;
      this.equations := equations;
      this.M := M;
      this.R0 := R0;
      dims := DimsFor(m, M, R0);
      timeArr := t;
      posArr := p;
      velArr := v;
      this.steps := steps;
      deltaT := Quot(m, tF - tI, (steps - 1) as real);
      new;
      assert posArr[..] == [x0] + seq(steps - 1, _ => Zero);
      assert velArr[..] == [v0] + seq(steps - 1, _ => Zero);
    }

    /** The constructor, with the exceptions it throws as a `Failure`. */
    static method Make(m: Libm, kind: Kind, equations: seq<Vec3 -> Vec3>, M: real, R0: real,
                       x0: Vec3, v0: Vec3, tI: real, tF: real, steps: int)
      returns (r: Result<Integrator>)
      ensures r.Failure? <==> ConstructionError(tI, tF, steps).Some?
      ensures r.Failure? ==> ConstructionError(tI, tF, steps) == Some(r.error)
      ensures r.Success? ==> fresh(r.value) && fresh(r.value.timeArr) && fresh(r.value.posArr)
                             && fresh(r.value.velArr) && r.value.Valid()
                             && r.value.Initialised(m, kind, equations, M, R0, x0, v0, tI, tF, steps)
    {
      var e := ConstructionError(tI, tF, steps);
      if e.Some? {
        return Failure(e.value);
      }
      var integ := new Integrator(m, kind, equations, M, R0, x0, v0, tI, tF, steps);
      return Success(integ);
    }

    /**
     * The copy constructor, and with it each subclass's `copy()`: fresh
     * arrays of `other.steps` slots holding `other`'s first slots. The
     * norming constants are not copied, so nothing is known about them.
     */
    constructor Copy(other: Integrator)
      requires other.Valid() && other.steps <= other.posArr.Length
      ensures Valid() && fresh(timeArr) && fresh(posArr) && fresh(velArr)
      ensures libm == other.libm && kind == other.kind && equations == other.equations
      ensures M == other.M && R0 == other.R0
      ensures steps == other.steps && deltaT == other.deltaT
      ensures timeArr[..] == other.timeArr[..other.steps]
      ensures posArr[..] == other.posArr[..other.steps]
      ensures velArr[..] == other.velArr[..other.steps]
    {
      var n := other.steps;
      var t := CopyPrefix(other.timeArr, n, 0.0);
      var p := CopyPrefix(other.posArr, n, Zero);
      var v := CopyPrefix(other.velArr, n, Zero);
      libm := other.libm;
      kind := other.kind;
      equations := other.equations;
      M := other.M;
      R0 := other.R0;
      timeArr := t;
      posArr := p;
      velArr := v;
      steps := n;
      deltaT := other.deltaT;
    }

    /**
     * The assignment operator: takes over the fields of a copy of `other`.
     * The object keeps its subclass and its own norming constants.
     */
    method Assign(other: Integrator)
      requires other.Valid() && other.steps <= other.posArr.Length
      modifies this
      ensures Valid() && fresh(timeArr) && fresh(posArr) && fresh(velArr)
      ensures equations == old(other.equations) && M == old(other.M) && R0 == old(other.R0)
      ensures steps == old(other.steps) && deltaT == old(other.deltaT)
      ensures timeArr[..] == old(other.timeArr[..other.steps])
      ensures posArr[..] == old(other.posArr[..other.steps])
      ensures velArr[..] == old(other.velArr[..other.steps])
    {
      var c := new Integrator.Copy(other);
      equations := c.equations;
      M := c.M;
      R0 := c.R0;
      steps := c.steps;
      deltaT := c.deltaT;
      timeArr := c.timeArr;
      posArr := c.posArr;
      velArr := c.velArr;
    }

    /** `set_steps(n)`: rejects a non-positive count; the arrays keep their size. */
    method SetSteps(n: int) returns (err: Option<Error>)
      requires Valid()
      modifies this`steps
      ensures Valid()
      ensures n <= 0 ==> err == Some(DomainError(StepsMessage)) && steps == old(steps)
      ensures 0 < n ==> err == None && steps == n
    {
      if n <= 0 {
        return Some(DomainError(StepsMessage));
      }
      steps := n;
      return None;
    }

    /**
     * `set_delta_t(t_start, t_end)`: after the checks, the step is the
     * truncating integer quotient of `t_end - t_start` by `steps - 1`. With a
     * single step that is an integer division by zero, which the source
     * leaves undefined, so a call that passes the checks needs `steps != 1`.
     */
    method SetDeltaT(tStart: int, tEnd: int) returns (err: Option<Error>)
      requires Valid()
      requires DeltaTError(tStart, tEnd).None? ==> steps != 1
      modifies this`deltaT
      ensures err == DeltaTError(tStart, tEnd)
      ensures err.Some? ==> deltaT == old(deltaT)
      ensures err.None? ==> deltaT == TruncatedStep(tStart, tEnd, steps)
    {
      err := DeltaTError(tStart, tEnd);
      if err.None? {
        deltaT := ((tEnd - tStart) / (steps - 1)) as real;
      }
    }

    /** `set_x0(x0)`: overwrites the first position slot. */
    method SetX0(x0: Vec3)
      requires Valid()
      modifies posArr
      ensures posArr[..] == old(posArr[..])[0 := x0]
    {
      posArr[0] := x0;
    }

    /** `set_v0(v0)`: overwrites the first velocity slot. */
    method SetV0(v0: Vec3)
      requires Valid()
      modifies velArr
      ensures velArr[..] == old(velArr[..])[0 := v0]
    {
      velArr[0] := v0;
    }

    /** `pos_arr[0] /= R_dim; vel_arr[0] /= V_dim;`: slot 0 in dimensionless units. */
    method NormaliseFirst()
      requires Valid()
      modifies posArr, velArr
      ensures CartElem(posArr[0], velArr[0]) == Normalise(libm, dims, CartElem(old(posArr[0]), old(velArr[0])))
      ensures forall j :: 0 < j < posArr.Length ==> posArr[j] == old(posArr[j]) && velArr[j] == old(velArr[j])
    {
      DivAssign(libm, posArr, 0, dims.r);
      DivAssign(libm, velArr, 0, dims.v);
    }

    /** `pos_arr[i] *= R_dim; vel_arr[i] *= V_dim;`: slot `i` back in km and km/s. */
    method DenormaliseSlot(i: nat)
      requires Valid() && i < posArr.Length
      modifies posArr, velArr
      ensures CartElem(posArr[i], velArr[i]) == Denormalise(dims, CartElem(old(posArr[i]), old(velArr[i])))
      ensures forall j :: 0 <= j < posArr.Length && j != i ==> posArr[j] == old(posArr[j]) && velArr[j] == old(velArr[j])
    {
      MulAssign(posArr, i, dims.r);
      MulAssign(velArr, i, dims.v);
    }

    /**
     * One pass of the `integrate()` loop body at index `i`: slot `i + 1`
     * receives the state one `step` after slot `i`, then slot `i` is scaled
     * back to kilometres and km/s. No other slot changes.
     */
    method StepSlot(step: CartElem -> CartElem, i: nat)
      requires Valid() && i + 1 < posArr.Length
      modifies posArr, velArr
      ensures CartElem(posArr[i + 1], velArr[i + 1]) == step(CartElem(old(posArr[i]), old(velArr[i])))
      ensures CartElem(posArr[i], velArr[i]) == Denormalise(dims, CartElem(old(posArr[i]), old(velArr[i])))
      ensures forall j :: 0 <= j < posArr.Length && j != i && j != i + 1 ==>
        posArr[j] == old(posArr[j]) && velArr[j] == old(velArr[j])
    {
      var next := step(CartElem(posArr[i], velArr[i]));
      posArr[i + 1] := next.pos;
      velArr[i + 1] := next.vel;
      DenormaliseSlot(i);
    }

    /**
     * The loop of `integrate()` from a dimensionless start state in slot 0:
     * afterwards slots `0 .. steps - 2` hold the trajectory in physical
     * units and slot `steps - 1` the last state, still dimensionless.
     */
    method RunSteps(step: CartElem -> CartElem, ghost start: CartElem)
      requires Valid() && steps <= posArr.Length
      requires posArr[0] == start.pos && velArr[0] == start.vel
      modifies posArr, velArr
      ensures forall j :: 0 <= j < steps - 1 ==>
        CartElem(posArr[j], velArr[j]) == Denormalise(dims, Iterate(step, start, j))
      ensures CartElem(posArr[steps - 1], velArr[steps - 1]) == Iterate(step, start, steps - 1)
      ensures forall j :: steps <= j < posArr.Length ==> posArr[j] == old(posArr[j]) && velArr[j] == old(velArr[j])
    {
      var n := steps;
      var i := 0;
      while i < n - 1
        invariant 0 <= i <= n - 1
        invariant forall j :: 0 <= j < i ==>
          CartElem(posArr[j], velArr[j]) == Denormalise(dims, Iterate(step, start, j))
        invariant CartElem(posArr[i], velArr[i]) == Iterate(step, start, i)
        invariant forall j :: i < j < posArr.Length ==> posArr[j] == old(posArr[j]) && velArr[j] == old(velArr[j])
      {
        StepSlot(step, i);
        i := i + 1;
      }
    }

    /**
     * The body of `integrate()` on the arrays: normalise slot 0, run the
     * loop with `step`, and scale the last slot back. Afterwards the first
     * `steps` slots hold the trajectory from `s0` in physical units.
     */
    method Trajectory(step: CartElem -> CartElem, ghost s0: CartElem)
      requires Valid() && steps <= posArr.Length
      requires posArr[0] == s0.pos && velArr[0] == s0.vel
      modifies posArr, velArr
      ensures forall j :: 0 <= j < steps ==>
        CartElem(posArr[j], velArr[j]) == Denormalise(dims, Iterate(step, Normalise(libm, dims, s0), j))
      ensures forall j :: steps <= j < posArr.Length ==> posArr[j] == old(posArr[j]) && velArr[j] == old(velArr[j])
    {
      NormaliseFirst();
      RunSteps(step, Normalise(libm, dims, s0));
      DenormaliseSlot(steps - 1);
    }

    /**
     * `integrate()`: fills the first `steps` slots with the trajectory from
     * the state in slot 0, leaves the slots beyond `steps` alone, and
     * restores the time step up to the round trip through `T_dim`.
     */
    method Integrate()
      requires Valid() && steps <= posArr.Length && |equations| > 2
      modifies this`deltaT, posArr, velArr
      ensures deltaT == Quot(libm, old(deltaT), dims.t) * dims.t
      ensures forall j :: 0 <= j < steps ==>
        CartElem(posArr[j], velArr[j])
          == Integrated(kind, libm, equations, dims, CartElem(old(posArr[0]), old(velArr[0])), old(deltaT), steps)[j]
      ensures forall j :: steps <= j < posArr.Length ==> posArr[j] == old(posArr[j]) && velArr[j] == old(velArr[j])
      ensures dims.t != 0.0 ==> deltaT == old(deltaT)
      ensures dims.r != 0.0 && dims.v != 0.0 ==> posArr[0] == old(posArr[0]) && velArr[0] == old(velArr[0])
    {
      ghost var s0 := CartElem(posArr[0], velArr[0]);
      ghost var dt := deltaT;
      var h := Quot(libm, deltaT, dims.t);
      deltaT := h;
      Trajectory(Stepper(kind, libm, equations, h), s0);
      deltaT := h * dims.t;
      forall j | 0 <= j < steps
        ensures CartElem(posArr[j], velArr[j]) == Integrated(kind, libm, equations, dims, s0, dt, steps)[j]
      {
        IntegratedAt(kind, libm, equations, dims, s0, dt, steps, j);
      }
      if dims.r != 0.0 && dims.v != 0.0 {
        IntegratedStartsAtInitialState(kind, libm, equations, dims, s0, dt, steps);
      }
    }
  }
}
