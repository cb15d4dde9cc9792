/**
 * `IntegratorFactory`: stores a central body, an initial state and the time
 * parameters, and builds an integrator of the kind named by a string. The
 * integrators it builds always solve the two-body system `orbit_de`.
 */
module Factory {
  import opened Numerics
  import opened Outcomes
  import opened MathObj
  import opened DiffEq
  import opened Bodies
  import opened Integrators

  /** The names `create` accepts. */
  function NameOf(kind: Kind): string {
    match kind
    case Euler => "Euler"
    case Verlet => "Verlet"
    case RK4 => "RK4"
  }

  /** The kind a name selects: an exact, case-sensitive comparison with each of the three names. */
  function KindOf(name: string): (k: Option<Kind>)
    ensures k.Some? <==> name == "Euler" || name == "Verlet" || name == "RK4"
    ensures k.Some? ==> NameOf(k.value) == name
  {
    if name == "Euler" then Some(Euler)
    else if name == "Verlet" then Some(Verlet)
    else if name == "RK4" then Some(RK4)
    else None
  }

  /** Every kind is selected by its own name and by no other. */
  lemma KindOfNameOf(kind: Kind, name: string)
    ensures KindOf(name) == Some(kind) <==> name == NameOf(kind)
  {
  }

  /** A name in any other letter case is rejected. */
  lemma NamesAreCaseSensitive()
    ensures KindOf("euler") == None && KindOf("VERLET") == None && KindOf("rk4") == None
  {
  }

  /** The message of the `domain_error` for an unknown name. */
  const InvalidMessage: string := "Invalid integrator! Should be one of: Euler, Verlet and RK4"

  /** The factory's stored parameters. */
  datatype IntegratorFactory = IntegratorFactory(
    celObj: CelestialObj,
    x0: Vec3,
    v0: Vec3,
    tStart: real,
    tEnd: real,
    tSteps: int)
  {
    /**
     * `create(type)`: a new integrator of the named kind for the stored
     * parameters, or the `domain_error` for an unknown name, or the error the
     * integrator's constructor raises. The factory itself is a value and does
     * not change.
     */
    method Create(m: Libm, name: string) returns (r: Result<Integrator>)
      ensures KindOf(name).None? ==> r == Failure(DomainError(InvalidMessage))
      ensures KindOf(name).Some? ==>
        (r.Failure? <==> ConstructionError(tStart, tEnd, tSteps).Some?)
        && (r.Failure? ==> ConstructionError(tStart, tEnd, tSteps) == Some(r.error))
      ensures r.Success? ==>
        && KindOf(name).Some?
        && fresh(r.value) && fresh(r.value.timeArr) && fresh(r.value.posArr) && fresh(r.value.velArr)
        && r.value.Valid()
        && r.value.Initialised(m, KindOf(name).value, OrbitEquations(m), celObj.mass, celObj.radius,
                               x0, v0, tStart, tEnd, tSteps)
    {
      var kind := KindOf(name);
      if kind.None? {
        return Failure(DomainError(InvalidMessage));
      }
      r := Integrator.Make(m, kind.value, OrbitEquations(m), celObj.mass, celObj.radius, x0, v0, tStart, tEnd, tSteps);
    }
  }

  /**
   * The factory the tests build: the Earth, a start at 7000 km on the x axis
   * at rest, 100 steps over 1000 s. Every one of the three names yields an
   * integrator of that kind with 100 steps and that start state.
   */
  method CreateForTests(m: Libm, name: string) returns (r: Result<Integrator>)
    requires name == "Euler" || name == "Verlet" || name == "RK4"
    ensures r.Success? && r.value.kind == KindOf(name).value && NameOf(r.value.kind) == name
    ensures r.Success? ==> r.value.Valid() && r.value.steps == 100 && r.value.posArr[0] == Vec3(7000.0, 0.0, 0.0)
                           && r.value.velArr[0] == Zero
  {
    var f := IntegratorFactory(Earth, Vec3(7000.0, 0.0, 0.0), Zero, 0.0, 1000.0, 100);
    r := f.Create(m, name);
  }
}
