/**
 * The system of differential equations of diff_eq.hpp. Entry `order` of the
 * list is the right-hand side of the equation of that order; the orbit
 * system reads entry 1 as dx/dt = v and entry 2 as dv/dt = a(x).
 *
 * The integrators hold the equation list itself (`seq<Vec3 -> Vec3>`), the
 * by-value copy of the `DESystem` they are given; the `DESystem` class
 * models the container and its `add_eq`/`get_rhs` on their own.
 */
module DiffEq {
  import opened Numerics
  import opened MathObj

  /** `DESystem<Vec3>`: an ordered list of right-hand sides. */
  class DESystem {
    var equations: seq<Vec3 -> Vec3>

    constructor (equations: seq<Vec3 -> Vec3>)
      ensures this.equations == equations
    {
      this.equations := equations;
    }

    /** `get_rhs(order)`; the source does no bounds check, so the index must be in range. */
    function GetRhs(order: nat): Vec3 -> Vec3
      reads this
      requires order < |equations|
    {
      equations[order]
    }

    /**
     * `add_eq(f, order)`: inserts `f` before the entry at `order`, so that
     * it becomes the right-hand side of that order and the later ones move up.
     */
    method AddEq(f: Vec3 -> Vec3, order: nat)
      requires order <= |equations|
      modifies this
      ensures |equations| == |old(equations)| + 1
      ensures GetRhs(order) == f
      ensures forall j :: 0 <= j < order ==> equations[j] == old(equations)[j]
      ensures forall j :: order < j < |equations| ==> equations[j] == old(equations)[j - 1]
    {
      equations := equations[..order] + [f] + equations[order..];
    }
  }

  /** `std::pow(r, 3)`, taken as exact. */
  function Cube(r: real): real {
    r * r * r
  }

  /** The acceleration of `orbit_de` in dimensionless units: `-x / pow(len(x), 3)`. */
  function Accel(m: Libm, x: Vec3): Vec3 {
    x.Neg().Div(m, Cube(x.Len(m)))
  }

  /**
   * The equations of the global `orbit_de`. Entry 0 is the identity and is
   * never read; entry 1 gives dx/dt = v and entry 2 gives dv/dt = a(x).
   */
  function OrbitEquations(m: Libm): (eqs: seq<Vec3 -> Vec3>)
    ensures |eqs| == 3
    ensures forall x :: eqs[1](x) == x && eqs[2](x) == Accel(m, x)
  {
    [x => x, v => v, x => Accel(m, x)]
  }

  /** The length of a non-zero position and its cube are positive. */
  lemma LenCubePositive(m: Libm, x: Vec3)
    requires Lawful(m) && x != Zero
    ensures 0.0 < x.Len(m)
    ensures 0.0 < Cube(x.Len(m))
  {
    LenIsRootOfDot(m, x);
    LenZeroIffZero(m, x);
    var l := x.Len(m);
    SquarePositive(l);
    calc { l * l * l; > 0.0 * l; }
  }

  /** `|1 / l^3| * l * l^2 == 1` for a positive `l`. */
  lemma ReciprocalCube(l: real, c: real)
    requires 0.0 < l && c == Cube(l) && 0.0 < c
    ensures Abs(1.0 / c) * l * (l * l) == 1.0
  {
    calc { Abs(1.0 / c) * l * (l * l); == (1.0 / c) * c; == 1.0; }
  }

  /** Inverse-square law: `len(a(x)) * len(x)^2 == 1` for every non-zero position. */
  lemma InverseSquareLaw(m: Libm, x: Vec3)
    requires Lawful(m) && x != Zero
    ensures Accel(m, x).Len(m) * (x.Len(m) * x.Len(m)) == 1.0
  {
    LenCubePositive(m, x);
    LenOfDivided(m, x.Neg(), Cube(x.Len(m)));
    LenOfNeg(m, x);
    ReciprocalCube(x.Len(m), Cube(x.Len(m)));
  }

  /** The acceleration points at the origin: its radial component is `-1 / len(x)`. */
  lemma AccelPointsInward(m: Libm, x: Vec3)
    requires Lawful(m) && x != Zero
    ensures Accel(m, x).Dot(x) * x.Len(m) == -1.0
  {
    LenCubePositive(m, x);
    LenIsRootOfDot(m, x);
    var l := x.Len(m);
    var c := Cube(l);
    DivIsScaling(m, x.Neg(), c);
    calc {
      Accel(m, x).Dot(x) * l;
      == (1.0 / c) * x.Neg().Dot(x) * l;
      == -(1.0 / c) * (l * l) * l;
      == -c / c;
      == -1.0;
    }
  }

  /** The acceleration is central: it is parallel to the position. */
  lemma AccelIsCentral(m: Libm, x: Vec3)
    requires Lawful(m)
    ensures Accel(m, x).Cross(x) == Zero
  {
    if x != Zero {
      LenCubePositive(m, x);
      AccelCentralStep(m, x, Cube(x.Len(m)));
    } else {
      CrossWithZero(Accel(m, x));
    }
  }

  lemma AccelCentralStep(m: Libm, x: Vec3, c: real)
    requires c != 0.0
    ensures x.Neg().Div(m, c).Cross(x) == Zero
  {
    DivIsScaling(m, x.Neg(), c);
    ScaledNeg(1.0 / c, x);
    ParallelCrossIsZero(-(1.0 / c), x);
  }

  /**
   * The time derivative of a state as the integrators evaluate it:
   * `get_rhs(1)` applied to the velocity and `get_rhs(2)` to the position.
   */
  function Derivative(eqs: seq<Vec3 -> Vec3>, s: CartElem): CartElem
    requires |eqs| > 2
  {
    CartElem(eqs[1](s.vel), eqs[2](s.pos))
  }

  /** A field that applies the same acceleration `a` everywhere, with the orbit system's first two entries. */
  function UniformField(a: Vec3): (eqs: seq<Vec3 -> Vec3>)
    ensures |eqs| == 3
  {
    [x => x, v => v, x => a]
  }

  /** The exact motion under a constant acceleration `a` for a time `h`. */
  function UniformMotion(s: CartElem, a: Vec3, h: real): CartElem {
    CartElem(s.pos.Add(s.vel.Mul(h)).Add(a.Mul(h * h / 2.0)), s.vel.Add(a.Mul(h)))
  }

  /** Drifting for `h` with the velocity half-kicked by `a` is the Taylor step `p + v h + a h^2 / 2`. */
  lemma DriftWithHalfKick(p: Vec3, v: Vec3, a: Vec3, h: real)
    ensures p.Add(v.Add(a.Mul(h / 2.0)).Mul(h)) == p.Add(v.Mul(h)).Add(a.Mul(h * h / 2.0))
  {
  }
}
