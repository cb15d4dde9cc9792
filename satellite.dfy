/**
 * `Satellite` of satellite.cpp: the Cartesian and the Keplerian view of one
 * orbit, the time parameters, and the integrator that propagates it.
 */
module Satellites {
  import opened Numerics
  import opened Outcomes
  import opened MathObj
  import opened DiffEq
  import opened Bodies
  import opened Integrators
  import opened Factory

  /** Metres per kilometre. */
  const KM: real := 1000.0

  /**
   * The vectors `calc_kepl` derives from a state, in metres and m/s: the
   * position `r`, the velocity `v`, the orbital momentum `h`, the
   * gravitational parameter `mu`, the eccentricity vector `e` and the
   * vector `n` towards the ascending node.
   */
  datatype KeplerVectors = KeplerVectors(r: Vec3, v: Vec3, h: Vec3, mu: real, e: Vec3, n: Vec3)

  /**
   * Step 1 of `calc_kepl`. The momentum is orthogonal to position and
   * velocity, and the node vector lies in the reference plane, orthogonal
   * to the momentum.
   */
  function PrepVectors(m: Libm, mass: real, c: CartElem): (k: KeplerVectors)
    ensures k.r.Dot(k.h) == 0.0 && k.v.Dot(k.h) == 0.0
    ensures k.n.z == 0.0 && k.n.Dot(k.h) == 0.0
  {
    var r := c.pos.Mul(KM);
    var v := c.vel.Mul(KM);
    var h := r.Cross(v);
    CrossIsOrthogonal(r, v);
    var mu := G * mass;
    var e := v.Cross(h).Div(m, mu).Sub(r.Norm(m));
    KeplerVectors(r, v, h, mu, e, Vec3(-h.y, h.x, 0.0))
  }

  /**
   * The pattern `calc_kepl` uses for its three angles:
   * `acos(clamp(c, -1, 1))` when `firstHalf` holds, `2 PI` minus it
   * otherwise. The first lies in [0, PI], the second in [PI, 2 PI].
   */
  function FullAngle(m: Libm, c: real, firstHalf: bool): (a: real)
    ensures Lawful(m) ==> 0.0 <= a <= 2.0 * PI
    ensures Lawful(m) && firstHalf ==> a <= PI
    ensures Lawful(m) && !firstHalf ==> PI <= a
  {
    var base := m.acos(Clamp(c, -1.0, 1.0));
    if firstHalf then base else 2.0 * PI - base
  }

  /**
   * `calc_kepl`: the Keplerian elements of a Cartesian state around a body
   * of the given mass. The semi-major axis follows from the vis-viva
   * equation and is converted back to kilometres.
   */
  function CalcKepl(m: Libm, mass: real, c: CartElem): (k: KeplElem)
    ensures Lawful(m) ==> 0.0 <= k.ecc
    ensures Lawful(m) ==> 0.0 <= k.trueAnom <= 2.0 * PI
    ensures Lawful(m) ==> 0.0 <= k.riAscNode <= 2.0 * PI
    ensures Lawful(m) ==> 0.0 <= k.argOfPer <= 2.0 * PI
  {
    var p := PrepVectors(m, mass, c);
    var trueAnom := FullAngle(m, Quot(m, p.e.Dot(p.r), p.e.Len(m) * p.r.Len(m)), p.r.Dot(p.v) >= 0.0);
    var inc := m.acos(Quot(m, p.h.z, p.h.Len(m)));
    var ecc := p.e.Len(m);
    var riAscNode := FullAngle(m, Quot(m, p.n.x, p.n.Len(m)), p.n.y >= 0.0);
    var argOfPer := FullAngle(m, Quot(m, p.n.Dot(p.e), p.n.Len(m) * p.e.Len(m)), p.e.z >= 0.0);
    var a := Quot(m, 1.0, Quot(m, 2.0, p.r.Len(m)) - Quot(m, p.v.Len(m) * p.v.Len(m), p.mu));
    KeplElem(ecc, Quot(m, a, KM), inc, riAscNode, argOfPer, trueAnom)
  }

  /**
   * Each angle takes the `2 PI - acos` branch exactly when its sign test
   * fails: the true anomaly on `r . v < 0`, the ascending node on
   * `n.y < 0`, the argument of periapsis on `e.z < 0`.
   */
  lemma CalcKeplHalves(m: Libm, mass: real, c: CartElem)
    requires Lawful(m)
    ensures var p := PrepVectors(m, mass, c); var k := CalcKepl(m, mass, c);
      && (p.r.Dot(p.v) >= 0.0 ==> k.trueAnom <= PI)
      && (p.r.Dot(p.v) < 0.0 ==> PI <= k.trueAnom)
      && (p.n.y >= 0.0 ==> k.riAscNode <= PI)
      && (p.n.y < 0.0 ==> PI <= k.riAscNode)
      && (p.e.z >= 0.0 ==> k.argOfPer <= PI)
      && (p.e.z < 0.0 ==> PI <= k.argOfPer)
  {
  }

  /** A quotient of a number by a positive bound on its magnitude lies in [-1, 1]. */
  lemma RatioInUnitRange(m: Libm, a: real, l: real)
    requires 0.0 < l && Abs(a) <= l
    ensures -1.0 <= Quot(m, a, l) <= 1.0
  {
    var q := Quot(m, a, l);
    assert q * l == a;
    if 1.0 < q {
      calc { a; == q * l; > 1.0 * l; }
    }
    if q < -1.0 {
      calc { a; == q * l; < (-1.0) * l; }
    }
  }

  /**
   * `inc = acos(h.z / len(h))` needs no clamp: for a non-zero momentum the
   * ratio lies in [-1, 1], so the inclination lies in [0, PI].
   */
  lemma InclinationInRange(m: Libm, mass: real, c: CartElem)
    requires Lawful(m)
    requires PrepVectors(m, mass, c).h != Zero
    ensures 0.0 <= CalcKepl(m, mass, c).inc <= PI
  {
    var h := PrepVectors(m, mass, c).h;
    SquareNonNegative(h.x);
    SquareNonNegative(h.y);
    assert h.z * h.z <= h.Dot(h);
    AbsBoundedBySqrt(m, h.z, h.Dot(h));
    LenZeroIffZero(m, h);
    RatioInUnitRange(m, h.z, h.Len(m));
  }

  /** First column of the perifocal-to-inertial rotation: the image of the x axis. */
  function ColumnP(m: Libm, w: real, i: real, om: real): Vec3 {
    Vec3(m.cos(w) * m.cos(om) - m.sin(w) * m.cos(i) * m.sin(om),
         m.cos(w) * m.sin(om) + m.sin(w) * m.cos(i) * m.cos(om),
         m.sin(w) * m.sin(i))
  }

  /** Second column of the perifocal-to-inertial rotation: the image of the y axis. */
  function ColumnQ(m: Libm, w: real, i: real, om: real): Vec3 {
    Vec3(-(m.sin(w) * m.cos(om) + m.cos(w) * m.cos(i) * m.sin(om)),
         m.cos(w) * m.cos(i) * m.cos(om) - m.sin(w) * m.sin(om),
         m.cos(w) * m.sin(i))
  }

  /**
   * The `transform` lambda of `calc_cart`: rotates a vector of the orbital
   * plane by the argument of periapsis `w`, the inclination `i` and the
   * longitude of the ascending node `om`. Its `z` input is ignored.
   */
  function Transform(m: Libm, w: real, i: real, om: real, o: Vec3): (t: Vec3)
    ensures t == ColumnP(m, w, i, om).Mul(o.x).Add(ColumnQ(m, w, i, om).Mul(o.y))
  {
    Vec3(o.x * (m.cos(w) * m.cos(om) - m.sin(w) * m.cos(i) * m.sin(om))
           - o.y * (m.sin(w) * m.cos(om) + m.cos(w) * m.cos(i) * m.sin(om)),
         o.x * (m.cos(w) * m.sin(om) + m.sin(w) * m.cos(i) * m.cos(om))
           + o.y * (m.cos(w) * m.cos(i) * m.cos(om) - m.sin(w) * m.sin(om)),
         o.x * m.sin(w) * m.sin(i) + o.y * m.cos(w) * m.sin(i))
  }

  /** Two pairs `(a, b)` and `(c, d)` with `a^2 + b^2 == 1` and `c^2 + d^2 == 1`. */
  lemma PythagorasProduct(a: real, b: real, c: real, d: real)
    requires a * a + b * b == 1.0 && c * c + d * d == 1.0
    ensures (a * c) * (a * c) + (a * d) * (a * d) + b * b == 1.0
  {
    calc {
      (a * c) * (a * c) + (a * d) * (a * d) + b * b;
      == (a * a) * (c * c + d * d) + b * b;
      == a * a + b * b;
    }
  }

  /** The first column has unit length. */
  lemma ColumnPIsUnit(m: Libm, w: real, i: real, om: real)
    requires Lawful(m)
    ensures ColumnP(m, w, i, om).Dot(ColumnP(m, w, i, om)) == 1.0
  {
    var cw, sw, ci, si, co, so := m.cos(w), m.sin(w), m.cos(i), m.sin(i), m.cos(om), m.sin(om);
    assert sw * sw + cw * cw == 1.0 && si * si + ci * ci == 1.0 && so * so + co * co == 1.0;
    UnitRows(cw, sw * ci, co, so);
    PythagorasProduct(sw, cw, ci, si);
    calc {
      ColumnP(m, w, i, om).Dot(ColumnP(m, w, i, om));
      == (cw * co - sw * ci * so) * (cw * co - sw * ci * so)
         + (cw * so + sw * ci * co) * (cw * so + sw * ci * co)
         + (sw * si) * (sw * si);
      == cw * cw + (sw * ci) * (sw * ci) + (sw * si) * (sw * si);
      == 1.0;
    }
  }

  /** The second column has unit length. */
  lemma ColumnQIsUnit(m: Libm, w: real, i: real, om: real)
    requires Lawful(m)
    ensures ColumnQ(m, w, i, om).Dot(ColumnQ(m, w, i, om)) == 1.0
  {
    var cw, sw, ci, si, co, so := m.cos(w), m.sin(w), m.cos(i), m.sin(i), m.cos(om), m.sin(om);
    assert sw * sw + cw * cw == 1.0 && si * si + ci * ci == 1.0 && so * so + co * co == 1.0;
    UnitRows(sw, cw * ci, co, so);
    PythagorasProduct(cw, sw, ci, si);
    calc {
      ColumnQ(m, w, i, om).Dot(ColumnQ(m, w, i, om));
      == (sw * co + cw * ci * so) * (sw * co + cw * ci * so)
         + (cw * ci * co - sw * so) * (cw * ci * co - sw * so)
         + (cw * si) * (cw * si);
      == sw * sw + (cw * ci) * (cw * ci) + (cw * si) * (cw * si);
      == 1.0;
    }
  }

  /** `(a c - b s)^2 + (a s + b c)^2 == a^2 + b^2` when `c^2 + s^2 == 1`. */
  lemma UnitRows(a: real, b: real, c: real, s: real)
    requires s * s + c * c == 1.0
    ensures (a * c - b * s) * (a * c - b * s) + (a * s + b * c) * (a * s + b * c) == a * a + b * b
    ensures (a * c + b * s) * (a * c + b * s) + (b * c - a * s) * (b * c - a * s) == a * a + b * b
  {
    calc {
      (a * c - b * s) * (a * c - b * s) + (a * s + b * c) * (a * s + b * c);
      == (a * a) * (c * c + s * s) + (b * b) * (s * s + c * c);
      == a * a + b * b;
    }
    calc {
      (a * c + b * s) * (a * c + b * s) + (b * c - a * s) * (b * c - a * s);
      == (a * a) * (c * c + s * s) + (b * b) * (s * s + c * c);
      == a * a + b * b;
    }
  }

  /** The two columns are orthogonal. */
  lemma ColumnsAreOrthogonal(m: Libm, w: real, i: real, om: real)
    requires Lawful(m)
    ensures ColumnP(m, w, i, om).Dot(ColumnQ(m, w, i, om)) == 0.0
  {
    var cw, sw, ci, si, co, so := m.cos(w), m.sin(w), m.cos(i), m.sin(i), m.cos(om), m.sin(om);
    assert si * si + ci * ci == 1.0 && so * so + co * co == 1.0;
    OrthogonalProduct(cw, sw, ci, si, co, so);
  }

  /** The dot product of the two columns, written out over sines and cosines. */
  lemma OrthogonalProduct(cw: real, sw: real, ci: real, si: real, co: real, so: real)
    requires si * si + ci * ci == 1.0 && so * so + co * co == 1.0
    ensures Vec3(cw * co - sw * ci * so, cw * so + sw * ci * co, sw * si)
              .Dot(Vec3(-(sw * co + cw * ci * so), cw * ci * co - sw * so, cw * si)) == 0.0
  {
    calc {
      Vec3(cw * co - sw * ci * so, cw * so + sw * ci * co, sw * si)
        .Dot(Vec3(-(sw * co + cw * ci * so), cw * ci * co - sw * so, cw * si));
      == { ColumnsDotSplit(cw, sw, ci, si, co, so); }
      (cw * co - sw * ci * so) * -(sw * co + cw * ci * so)
        + (cw * so + sw * ci * co) * (cw * ci * co - sw * so)
        + (sw * si) * (cw * si);
      == { RotatedPairDot(cw, sw * ci, sw, cw * ci, co, so); }
      (sw * ci * (cw * ci) - cw * sw) * (co * co + so * so) + (sw * si) * (cw * si);
      == { MulByOne(sw * ci * (cw * ci) - cw * sw, co * co + so * so); }
      sw * ci * (cw * ci) - cw * sw + (sw * si) * (cw * si);
      == { CrossTermVanishes(cw, sw, ci, si); }
      0.0;
    }
  }

  /** The dot product of the columns, split into its in-plane part and its `z` part. */
  lemma ColumnsDotSplit(cw: real, sw: real, ci: real, si: real, co: real, so: real)
    ensures Vec3(cw * co - sw * ci * so, cw * so + sw * ci * co, sw * si)
              .Dot(Vec3(-(sw * co + cw * ci * so), cw * ci * co - sw * so, cw * si))
            == (cw * co - sw * ci * so) * -(sw * co + cw * ci * so)
               + (cw * so + sw * ci * co) * (cw * ci * co - sw * so)
               + (sw * si) * (cw * si)
  {
  }

  /** The in-plane part of two rotated pairs: `(b d - a c') (c^2 + s^2)`. */
  lemma RotatedPairDot(a: real, b: real, c': real, d: real, c: real, s: real)
    ensures (a * c - b * s) * -(c' * c + d * s) + (a * s + b * c) * (d * c - c' * s)
            == (b * d - a * c') * (c * c + s * s)
  {
  }

  /** `sin w cos w (cos^2 i - 1) + sin w cos w sin^2 i == 0`. */
  lemma CrossTermVanishes(cw: real, sw: real, ci: real, si: real)
    requires si * si + ci * ci == 1.0
    ensures sw * ci * (cw * ci) - cw * sw + (sw * si) * (cw * si) == 0.0
  {
    SpreadProduct(cw * sw, si * si, ci * ci, 1.0);
    MulByZero(cw * sw, si * si + ci * ci - 1.0);
    assert sw * ci * (cw * ci) == (cw * sw) * (ci * ci);
    assert (sw * si) * (cw * si) == (cw * sw) * (si * si);
  }

  /** `x (a + b - c) == x a + x b - x c`. */
  lemma SpreadProduct(x: real, a: real, b: real, c: real)
    ensures x * (a + b - c) == x * a + x * b - x * c
  {
  }

  /**
   * The normal of the orbital plane with inclination `i` and ascending node
   * `om`; it is the same for every argument of periapsis.
   */
  function PlaneNormal(m: Libm, i: real, om: real): Vec3 {
    Vec3(m.sin(i) * m.sin(om), -(m.sin(i) * m.cos(om)), m.cos(i))
  }

  /** Both columns lie in the plane with that normal. */
  lemma ColumnsInPlane(m: Libm, w: real, i: real, om: real)
    requires Lawful(m)
    ensures ColumnP(m, w, i, om).Dot(PlaneNormal(m, i, om)) == 0.0
    ensures ColumnQ(m, w, i, om).Dot(PlaneNormal(m, i, om)) == 0.0
  {
    var cw, sw, ci, si, co, so := m.cos(w), m.sin(w), m.cos(i), m.sin(i), m.cos(om), m.sin(om);
    assert so * so + co * co == 1.0;
    ColumnsInPlaneOf(cw, sw, ci, si, co, so);
  }

  /** `ColumnsInPlane` with the sines and cosines as plain numbers. */
  lemma ColumnsInPlaneOf(cw: real, sw: real, ci: real, si: real, co: real, so: real)
    requires so * so + co * co == 1.0
    ensures Vec3(cw * co - sw * ci * so, cw * so + sw * ci * co, sw * si).Dot(Vec3(si * so, -(si * co), ci)) == 0.0
    ensures Vec3(-(sw * co + cw * ci * so), cw * ci * co - sw * so, cw * si).Dot(Vec3(si * so, -(si * co), ci)) == 0.0
  {
    calc {
      Vec3(cw * co - sw * ci * so, cw * so + sw * ci * co, sw * si).Dot(Vec3(si * so, -(si * co), ci));
      == { NormalDotSplit(cw, sw, ci, si, co, so); }
      (cw * co - sw * ci * so) * (si * so) + (cw * so + sw * ci * co) * -(si * co) + (sw * si) * ci;
      == { FirstColumnNormalDot(cw, sw * ci, co, so, si); }
      -(sw * ci * si) * (so * so + co * co) + (sw * si) * ci;
      == { MulByOne(-(sw * ci * si), so * so + co * co); }
      -(sw * ci * si) + (sw * si) * ci;
      == { ProductCancels(sw, ci, si); }
      0.0;
    }
    calc {
      Vec3(-(sw * co + cw * ci * so), cw * ci * co - sw * so, cw * si).Dot(Vec3(si * so, -(si * co), ci));
      == { NormalDotSplit(cw, sw, ci, si, co, so); }
      -(sw * co + cw * ci * so) * (si * so) + (cw * ci * co - sw * so) * -(si * co) + (cw * si) * ci;
      == { SecondColumnNormalDot(sw, cw * ci, co, so, si); }
      -(cw * ci * si) * (so * so + co * co) + (cw * si) * ci;
      == { MulByOne(-(cw * ci * si), so * so + co * co); }
      -(cw * ci * si) + (cw * si) * ci;
      == { ProductCancels(cw, ci, si); }
      0.0;
    }
  }

  /** The dot products of the columns with the normal, split into in-plane and `z` parts. */
  lemma NormalDotSplit(cw: real, sw: real, ci: real, si: real, co: real, so: real)
    ensures Vec3(cw * co - sw * ci * so, cw * so + sw * ci * co, sw * si).Dot(Vec3(si * so, -(si * co), ci))
            == (cw * co - sw * ci * so) * (si * so) + (cw * so + sw * ci * co) * -(si * co) + (sw * si) * ci
    ensures Vec3(-(sw * co + cw * ci * so), cw * ci * co - sw * so, cw * si).Dot(Vec3(si * so, -(si * co), ci))
            == -(sw * co + cw * ci * so) * (si * so) + (cw * ci * co - sw * so) * -(si * co) + (cw * si) * ci
  {
  }

  /** A column shaped like the first one, dotted with the normal. */
  lemma FirstColumnNormalDot(a: real, b: real, c: real, s: real, t: real)
    ensures (a * c - b * s) * (t * s) + (a * s + b * c) * -(t * c) == -(b * t) * (s * s + c * c)
  {
  }

  /** A column shaped like the second one, dotted with the normal. */
  lemma SecondColumnNormalDot(c': real, d: real, c: real, s: real, t: real)
    ensures -(c' * c + d * s) * (t * s) + (d * c - c' * s) * -(t * c) == -(d * t) * (s * s + c * c)
  {
  }

  /** `-(a b c) + (a c) b == 0`. */
  lemma ProductCancels(a: real, b: real, c: real)
    ensures -(a * b * c) + (a * c) * b == 0.0
  {
  }

  /** The squared length of a combination of two orthonormal vectors. */
  lemma DotOfCombination(a: real, b: real, p: Vec3, q: Vec3)
    requires p.Dot(p) == 1.0 && q.Dot(q) == 1.0 && p.Dot(q) == 0.0
    ensures p.Mul(a).Add(q.Mul(b)).Dot(p.Mul(a).Add(q.Mul(b))) == a * a + b * b
  {
    calc {
      p.Mul(a).Add(q.Mul(b)).Dot(p.Mul(a).Add(q.Mul(b)));
      == (a * a) * p.Dot(p) + 2.0 * (a * b) * p.Dot(q) + (b * b) * q.Dot(q);
      == a * a + b * b;
    }
  }

  /** A combination of two vectors orthogonal to `n` is orthogonal to `n`. */
  lemma CombinationInPlane(a: real, b: real, p: Vec3, q: Vec3, n: Vec3)
    requires p.Dot(n) == 0.0 && q.Dot(n) == 0.0
    ensures p.Mul(a).Add(q.Mul(b)).Dot(n) == 0.0
  {
    calc {
      p.Mul(a).Add(q.Mul(b)).Dot(n);
      == a * p.Dot(n) + b * q.Dot(n);
      == 0.0;
    }
  }

  /** The rotation keeps the length of every vector of the orbital plane. */
  lemma TransformKeepsLength(m: Libm, w: real, i: real, om: real, o: Vec3)
    requires Lawful(m) && o.z == 0.0
    ensures Transform(m, w, i, om, o).Dot(Transform(m, w, i, om, o)) == o.Dot(o)
  {
    ColumnPIsUnit(m, w, i, om);
    ColumnQIsUnit(m, w, i, om);
    ColumnsAreOrthogonal(m, w, i, om);
    DotOfCombination(o.x, o.y, ColumnP(m, w, i, om), ColumnQ(m, w, i, om));
  }

  /** Step 2 of `calc_cart`: the eccentric anomaly from the true anomaly `ni`. */
  function EccAnomaly(m: Libm, e: real, ni: real): real {
    2.0 * m.atan2(m.sqrt(1.0 - e) * m.sin(ni / 2.0), m.sqrt(1.0 + e) * m.cos(ni / 2.0))
  }

  /** Step 4 of `calc_cart`: the distance from the central body in metres. */
  function Distance(m: Libm, k: KeplElem): real {
    k.semMajAx * KM * (1.0 - k.ecc * m.cos(EccAnomaly(m, k.ecc, k.trueAnom)))
  }

  /** Step 5 of `calc_cart`: position and velocity in the orbital frame, in metres and m/s. */
  function OrbitalFrame(m: Libm, mass: real, k: KeplElem): (s: CartElem)
    ensures s.pos.z == 0.0 && s.vel.z == 0.0
  {
    var e := k.ecc;
    var a := k.semMajAx * KM;
    var ea := EccAnomaly(m, e, k.trueAnom);
    var r := Distance(m, k);
    var mu := G * mass;
    CartElem(ScalarMul(r, Vec3(m.cos(k.trueAnom), m.sin(k.trueAnom), 0.0)),
             ScalarMul(Quot(m, m.sqrt(mu * a), r), Vec3(-m.sin(ea), m.sqrt(1.0 - e * e) * m.cos(ea), 0.0)))
  }

  /** `calc_cart`: the Cartesian state, in km and km/s, of a set of Keplerian elements. */
  function CalcCart(m: Libm, mass: real, k: KeplElem): CartElem {
    var o := OrbitalFrame(m, mass, k);
    CartElem(Transform(m, k.argOfPer, k.inc, k.riAscNode, o.pos).Div(m, KM),
             Transform(m, k.argOfPer, k.inc, k.riAscNode, o.vel).Div(m, KM))
  }

  /** The orbital-frame position lies at the step-4 distance. */
  lemma OrbitalFramePosLength(m: Libm, mass: real, k: KeplElem)
    requires Lawful(m)
    ensures OrbitalFrame(m, mass, k).pos.Dot(OrbitalFrame(m, mass, k).pos) == Distance(m, k) * Distance(m, k)
  {
    var r := Distance(m, k);
    var c, s := m.cos(k.trueAnom), m.sin(k.trueAnom);
    assert OrbitalFrame(m, mass, k).pos == Vec3(r * c, r * s, r * 0.0);
    PolarDot(r, c, s);
  }

  /** A point at angle `t` and distance `r`, with `c` and `s` its cosine and sine, lies at squared distance `r^2`. */
  lemma PolarDot(r: real, c: real, s: real)
    requires s * s + c * c == 1.0
    ensures Vec3(r * c, r * s, r * 0.0).Dot(Vec3(r * c, r * s, r * 0.0)) == r * r
  {
    calc {
      Vec3(r * c, r * s, r * 0.0).Dot(Vec3(r * c, r * s, r * 0.0));
      == { PolarSquare(r, c, s); }
      (r * r) * (s * s + c * c);
      == { MulByOne(r * r, s * s + c * c); }
      r * r;
    }
  }

  /** `(r c)^2 + (r s)^2 == r^2 (s^2 + c^2)`. */
  lemma PolarSquare(r: real, c: real, s: real)
    ensures (r * c) * (r * c) + (r * s) * (r * s) + (r * 0.0) * (r * 0.0) == (r * r) * (s * s + c * c)
  {
  }

  /**
   * `calc_cart` places the satellite at distance `|a (1 - e cos E)|` from the
   * centre of the body, converted to kilometres.
   */
  lemma CalcCartDistance(m: Libm, mass: real, k: KeplElem)
    requires Lawful(m)
    ensures CalcCart(m, mass, k).pos.Len(m) * KM == Abs(Distance(m, k))
  {
    var o := OrbitalFrame(m, mass, k);
    var t := Transform(m, k.argOfPer, k.inc, k.riAscNode, o.pos);
    OrbitalFramePosLength(m, mass, k);
    TransformKeepsLength(m, k.argOfPer, k.inc, k.riAscNode, o.pos);
    var d := Abs(Distance(m, k));
    assert d * d == t.Dot(t);
    LenInKilometres(m, t, d);
  }

  /** A vector of length `d` in metres has length `d` once converted to kilometres and back. */
  lemma LenInKilometres(m: Libm, t: Vec3, d: real)
    requires Lawful(m) && 0.0 <= d && d * d == t.Dot(t)
    ensures t.Div(m, KM).Len(m) * KM == d
  {
    SqrtOfSquare(m, d, t.Dot(t));
    LenOfDivided(m, t, KM);
  }

  /**
   * Position and velocity from `calc_cart` lie in the orbital plane fixed by
   * the inclination and the ascending node.
   */
  lemma CalcCartInPlane(m: Libm, mass: real, k: KeplElem)
    requires Lawful(m)
    ensures CalcCart(m, mass, k).pos.Dot(PlaneNormal(m, k.inc, k.riAscNode)) == 0.0
    ensures CalcCart(m, mass, k).vel.Dot(PlaneNormal(m, k.inc, k.riAscNode)) == 0.0
  {
    var o := OrbitalFrame(m, mass, k);
    var p := ColumnP(m, k.argOfPer, k.inc, k.riAscNode);
    var q := ColumnQ(m, k.argOfPer, k.inc, k.riAscNode);
    var n := PlaneNormal(m, k.inc, k.riAscNode);
    ColumnsInPlane(m, k.argOfPer, k.inc, k.riAscNode);
    CombinationInPlane(o.pos.x, o.pos.y, p, q, n);
    CombinationInPlane(o.vel.x, o.vel.y, p, q, n);
    ScaledIsInPlane(m, Transform(m, k.argOfPer, k.inc, k.riAscNode, o.pos), n);
    ScaledIsInPlane(m, Transform(m, k.argOfPer, k.inc, k.riAscNode, o.vel), n);
  }

  /** Dividing by the kilometre factor keeps a vector orthogonal to `n`. */
  lemma ScaledIsInPlane(m: Libm, t: Vec3, n: Vec3)
    requires t.Dot(n) == 0.0
    ensures t.Div(m, KM).Dot(n) == 0.0
  {
    DivIsScaling(m, t, KM);
    calc {
      t.Div(m, KM).Dot(n);
      == (1.0 / KM) * t.Dot(n);
      == 0.0;
    }
  }

  /** What `propagate` returns: the step count and the integrator's three arrays, shared, not copied. */
  datatype SimData = SimData(steps: int, timeArr: array<real>, posArr: array<Vec3>, velArr: array<Vec3>)

  /** The default initial state of the default constructor, in km and km/s. */
  const DefaultCart: CartElem := CartElem(Vec3(7000.0, 0.000001, -0.001608), Vec3(0.000002, 1.310359, 7.431412))

  /**
   * The `str_integ` table of the constructors and `set_integ`: a new
   * integrator of the named kind for the two-body system, seeded with the
   * given state and time parameters. An unknown name finds the empty
   * function the map inserts, and calling it fails with
   * `bad_function_call`. `t_steps` is a `double` that converts to the
   * constructor's `int` by truncation.
   */
  method BuildIntegrator(m: Libm, name: string, cel: CelestialObj, c: CartElem, tStart: real, tEnd: real, tSteps: real)
    returns (r: Result<Integrator>)
    ensures KindOf(name).None? ==> r == Failure(BadFunctionCall)
    ensures KindOf(name).Some? ==>
      (r.Failure? <==> ConstructionError(tStart, tEnd, Trunc(tSteps)).Some?)
      && (r.Failure? ==> ConstructionError(tStart, tEnd, Trunc(tSteps)) == Some(r.error))
    ensures r.Success? ==>
      && KindOf(name).Some?
      && fresh(r.value) && fresh(r.value.timeArr) && fresh(r.value.posArr) && fresh(r.value.velArr)
      && r.value.Valid()
      && r.value.Initialised(m, KindOf(name).value, OrbitEquations(m), cel.mass, cel.radius,
                             c.pos, c.vel, tStart, tEnd, Trunc(tSteps))
  {
    var kind := KindOf(name);
    if kind.None? {
      return Failure(BadFunctionCall);
    }
    r := Integrator.Make(m, kind.value, OrbitEquations(m), cel.mass, cel.radius, c.pos, c.vel, tStart, tEnd, Trunc(tSteps));
  }

  class Satellite {
    const libm: Libm
    var cartElem: CartElem
    var keplElem: KeplElem
    var integName: string
    var celObj: CelestialObj
    var tStart: real
    var tEnd: real
    var tSteps: real
    /** The owned integrator; `null` once a failed `set_integ` has deleted it. */
    var integ: Integrator?

    /** The satellite owns a live integrator for the two-body system. */
    ghost predicate Ready()
      reads this, integ
    {
      integ != null && integ.Valid() && integ.libm == libm && integ.equations == OrbitEquations(libm)
    }

    /** Stores every field as given. */
    constructor Init(m: Libm, cart: CartElem, kepl: KeplElem, name: string, cel: CelestialObj,
                     tStart: real, tEnd: real, tSteps: real, integ: Integrator?)
      ensures libm == m && cartElem == cart && keplElem == kepl && integName == name && celObj == cel
      ensures this.tStart == tStart && this.tEnd == tEnd && this.tSteps == tSteps && this.integ == integ
    {
      libm := m;
      cartElem := cart;
      keplElem := kepl;
      integName := name;
      celObj := cel;
      this.tStart := tStart;
      this.tEnd := tEnd;
      this.tSteps := tSteps;
      this.integ := integ;
    }

    /**
     * The Cartesian constructor: stores the state, derives the Keplerian
     * elements from it, and builds the named integrator seeded with it.
     */
    static method FromCart(m: Libm, cart: CartElem, name: string, cel: CelestialObj,
                           tStart: real, tEnd: real, tSteps: int)
      returns (r: Result<Satellite>)
      ensures r.Failure? <==> KindOf(name).None? || ConstructionError(tStart, tEnd, tSteps).Some?
      ensures KindOf(name).None? ==> r == Failure(BadFunctionCall)
      ensures KindOf(name).Some? && r.Failure? ==> ConstructionError(tStart, tEnd, tSteps) == Some(r.error)
      ensures r.Success? ==>
        && fresh(r.value) && fresh(r.value.integ) && r.value.Ready()
        && fresh(r.value.integ.timeArr) && fresh(r.value.integ.posArr) && fresh(r.value.integ.velArr)
        && r.value.cartElem == cart && r.value.keplElem == CalcKepl(m, cel.mass, cart)
        && r.value.integName == name && r.value.celObj == cel
        && r.value.tStart == tStart && r.value.tEnd == tEnd && r.value.tSteps == tSteps as real
        && r.value.integ.kind == KindOf(name).value
        && r.value.integ.Initialised(m, KindOf(name).value, OrbitEquations(m), cel.mass, cel.radius,
                                     cart.pos, cart.vel, tStart, tEnd, tSteps)
    {
      var kepl := CalcKepl(m, cel.mass, cart);
      var b := BuildIntegrator(m, name, cel, cart, tStart, tEnd, tSteps as real);
      if b.Failure? {
        return Failure(b.error);
      }
      var sat := new Satellite.Init(m, cart, kepl, name, cel, tStart, tEnd, tSteps as real, b.value);
      return Success(sat);
    }

    /**
     * The Keplerian constructor: stores the elements, derives the Cartesian
     * state from them, and builds the named integrator seeded with that
     * state.
     */
    static method FromKepl(m: Libm, kepl: KeplElem, name: string, cel: CelestialObj,
                           tStart: real, tEnd: real, tSteps: int)
      returns (r: Result<Satellite>)
      ensures r.Failure? <==> KindOf(name).None? || ConstructionError(tStart, tEnd, tSteps).Some?
      ensures KindOf(name).None? ==> r == Failure(BadFunctionCall)
      ensures KindOf(name).Some? && r.Failure? ==> ConstructionError(tStart, tEnd, tSteps) == Some(r.error)
      ensures r.Success? ==>
        && fresh(r.value) && fresh(r.value.integ) && r.value.Ready()
        && fresh(r.value.integ.timeArr) && fresh(r.value.integ.posArr) && fresh(r.value.integ.velArr)
        && r.value.keplElem == kepl && r.value.cartElem == CalcCart(m, cel.mass, kepl)
        && r.value.integName == name && r.value.celObj == cel
        && r.value.tStart == tStart && r.value.tEnd == tEnd && r.value.tSteps == tSteps as real
        && r.value.integ.kind == KindOf(name).value
        && r.value.integ.Initialised(m, KindOf(name).value, OrbitEquations(m), cel.mass, cel.radius,
                                     CalcCart(m, cel.mass, kepl).pos, CalcCart(m, cel.mass, kepl).vel,
                                     tStart, tEnd, tSteps)
    {
      var cart := CalcCart(m, cel.mass, kepl);
      var b := BuildIntegrator(m, name, cel, cart, tStart, tEnd, tSteps as real);
      if b.Failure? {
        return Failure(b.error);
      }
      var sat := new Satellite.Init(m, cart, kepl, name, cel, tStart, tEnd, tSteps as real, b.value);
      return Success(sat);
    }

    /**
     * The default constructor: the default state around the Earth, RK4, one
     * day in 8640 steps. Its arguments pass every check.
     */
    static method Default(m: Libm) returns (r: Result<Satellite>)
      ensures r.Success? && r.value.integName == "RK4" && r.value.tSteps == 8640.0
      ensures r.Success? ==> r.value.cartElem == DefaultCart && r.value.celObj == Earth
      ensures r.Success? ==> r.value.tStart == 0.0 && r.value.tEnd == 86400.0
      ensures r.Success? ==> r.value.Ready() && r.value.integ.kind == RK4
      ensures r.Success? ==> fresh(r.value) && fresh(r.value.integ)
      ensures r.Success? ==> fresh(r.value.integ.timeArr) && fresh(r.value.integ.posArr) && fresh(r.value.integ.velArr)
      ensures r.Success? ==>
        r.value.integ.Initialised(m, RK4, OrbitEquations(m), Earth.mass, Earth.radius,
                                  DefaultCart.pos, DefaultCart.vel, 0.0, 86400.0, 8640)
    {
      assert KindOf("RK4") == Some(RK4);
      r := FromCart(m, DefaultCart, "RK4", Earth, 0.0, 86400.0, 8640);
    }

    /** The copy constructor: the same fields and a fresh copy of the integrator. */
    constructor Copy(other: Satellite)
      requires other.Ready() && other.integ.steps <= other.integ.posArr.Length
      ensures libm == other.libm && cartElem == other.cartElem && keplElem == other.keplElem
      ensures integName == other.integName && celObj == other.celObj
      ensures tStart == other.tStart && tEnd == other.tEnd && tSteps == other.tSteps
      ensures Ready() && fresh(integ) && fresh(integ.timeArr) && fresh(integ.posArr) && fresh(integ.velArr)
      ensures integ.kind == other.integ.kind && integ.steps == other.integ.steps
      ensures integ.deltaT == other.integ.deltaT && integ.M == other.integ.M && integ.R0 == other.integ.R0
      ensures integ.timeArr[..] == other.integ.timeArr[..other.integ.steps]
      ensures integ.posArr[..] == other.integ.posArr[..other.integ.steps]
      ensures integ.velArr[..] == other.integ.velArr[..other.integ.steps]
    {
      var c := new Integrator.Copy(other.integ);
      libm := other.libm;
      cartElem := other.cartElem;
      keplElem := other.keplElem;
      integName := other.integName;
      celObj := other.celObj;
      tStart := other.tStart;
      tEnd := other.tEnd;
      tSteps := other.tSteps;
      integ := c;
    }

    /** `set_cart_elem`: replaces the state and recomputes the elements; the integrator is not reseeded. */
    method SetCartElem(c: CartElem)
      modifies this
      ensures cartElem == c && keplElem == CalcKepl(libm, celObj.mass, c)
      ensures integ == old(integ) && integName == old(integName) && celObj == old(celObj)
      ensures tStart == old(tStart) && tEnd == old(tEnd) && tSteps == old(tSteps)
    {
      cartElem := c;
      keplElem := CalcKepl(libm, celObj.mass, c);
    }

    /** `set_kepl_elem`: replaces the elements and recomputes the state; the integrator is not reseeded. */
    method SetKeplElem(k: KeplElem)
      modifies this
      ensures keplElem == k && cartElem == CalcCart(libm, celObj.mass, k)
      ensures integ == old(integ) && integName == old(integName) && celObj == old(celObj)
      ensures tStart == old(tStart) && tEnd == old(tEnd) && tSteps == old(tSteps)
    {
      keplElem := k;
      cartElem := CalcCart(libm, celObj.mass, k);
    }

    /** The assignment operator: takes over the fields of a copy of `other`. */
    method Assign(other: Satellite)
      requires other.Ready() && other.integ.steps <= other.integ.posArr.Length
      requires libm == other.libm
      modifies this
      ensures cartElem == old(other.cartElem) && keplElem == old(other.keplElem)
      ensures integName == old(other.integName) && celObj == old(other.celObj)
      ensures tStart == old(other.tStart) && tEnd == old(other.tEnd) && tSteps == old(other.tSteps)
      ensures Ready() && fresh(integ) && fresh(integ.timeArr) && fresh(integ.posArr) && fresh(integ.velArr)
      ensures integ.kind == old(other.integ.kind) && integ.steps == old(other.integ.steps)
      ensures integ.deltaT == old(other.integ.deltaT) && integ.M == old(other.integ.M) && integ.R0 == old(other.integ.R0)
      ensures integ.timeArr[..] == old(other.integ.timeArr[..other.integ.steps])
      ensures integ.posArr[..] == old(other.integ.posArr[..other.integ.steps])
      ensures integ.velArr[..] == old(other.integ.velArr[..other.integ.steps])
    {
      var c := new Satellite.Copy(other);
      cartElem := c.cartElem;
      keplElem := c.keplElem;
      integName := c.integName;
      celObj := c.celObj;
      tStart := c.tStart;
      tEnd := c.tEnd;
      tSteps := c.tSteps;
      integ := c.integ;
    }

    /**
     * `set_t_start(t)`: stores the new start, then recomputes the
     * integrator's time step from it and the end time converted to `int`.
     * The field keeps the new value even when the integrator rejects it.
     */
    method SetTStart(t: int) returns (err: Option<Error>)
      requires Ready()
      requires DeltaTError(t, Trunc(tEnd)).None? ==> integ.steps != 1
      modifies this, integ`deltaT
      ensures tStart == t as real
      ensures tEnd == old(tEnd) && tSteps == old(tSteps) && integ == old(integ) && Ready()
      ensures cartElem == old(cartElem) && keplElem == old(keplElem) && integName == old(integName) && celObj == old(celObj)
      ensures err == DeltaTError(t, Trunc(tEnd))
      ensures err.Some? ==> integ.deltaT == old(integ.deltaT)
      ensures err.None? ==> integ.deltaT == TruncatedStep(t, Trunc(tEnd), integ.steps)
    {
      tStart := t as real;
      err := integ.SetDeltaT(t, Trunc(tEnd));
    }

    /**
     * `set_t_end(t)`: stores the new end, then recomputes the integrator's
     * time step from the start time converted to `int` and it.
     */
    method SetTEnd(t: int) returns (err: Option<Error>)
      requires Ready()
      requires DeltaTError(Trunc(tStart), t).None? ==> integ.steps != 1
      modifies this, integ`deltaT
      ensures tEnd == t as real
      ensures tStart == old(tStart) && tSteps == old(tSteps) && integ == old(integ) && Ready()
      ensures cartElem == old(cartElem) && keplElem == old(keplElem) && integName == old(integName) && celObj == old(celObj)
      ensures err == DeltaTError(Trunc(tStart), t)
      ensures err.Some? ==> integ.deltaT == old(integ.deltaT)
      ensures err.None? ==> integ.deltaT == TruncatedStep(Trunc(tStart), t, integ.steps)
    {
      tEnd := t as real;
      err := integ.SetDeltaT(Trunc(tStart), t);
    }

    /**
     * `set_t_steps(n)`: stores a positive count and forwards every count to
     * the integrator, which rejects a non-positive one.
     */
    method SetTSteps(n: int) returns (err: Option<Error>)
      requires Ready()
      modifies this, integ`steps
      ensures integ == old(integ) && Ready() && tStart == old(tStart) && tEnd == old(tEnd)
      ensures 0 < n ==> tSteps == n as real && integ.steps == n && err == None
      ensures n <= 0 ==> tSteps == old(tSteps) && integ.steps == old(integ.steps)
                         && err == Some(DomainError(StepsMessage))
      ensures cartElem == old(cartElem) && keplElem == old(keplElem) && integName == old(integName) && celObj == old(celObj)
    {
      if n > 0 {
        tSteps := n as real;
      }
      err := integ.SetSteps(n);
    }

    /**
     * `set_integ(name)`: records the name, discards the integrator and
     * builds a new one of the named kind from the current state and time
     * parameters. When building fails, the old integrator is already gone.
     */
    method SetInteg(name: string) returns (err: Option<Error>)
      modifies this
      ensures integName == name
      ensures cartElem == old(cartElem) && keplElem == old(keplElem) && celObj == old(celObj)
      ensures tStart == old(tStart) && tEnd == old(tEnd) && tSteps == old(tSteps)
      ensures err.Some? <==> KindOf(name).None? || ConstructionError(tStart, tEnd, Trunc(tSteps)).Some?
      ensures err.Some? ==> integ == null
      ensures KindOf(name).None? ==> err == Some(BadFunctionCall)
      ensures KindOf(name).Some? ==> err == ConstructionError(tStart, tEnd, Trunc(tSteps))
      ensures err.None? ==>
        && fresh(integ) && Ready() && integ.kind == KindOf(name).value
        && fresh(integ.timeArr) && fresh(integ.posArr) && fresh(integ.velArr)
        && integ.Initialised(libm, KindOf(name).value, OrbitEquations(libm), celObj.mass, celObj.radius,
                             cartElem.pos, cartElem.vel, tStart, tEnd, Trunc(tSteps))
    {
      integName := name;
      integ := null;
      var b := BuildIntegrator(libm, name, celObj, cartElem, tStart, tEnd, tSteps);
      if b.Failure? {
        return Some(b.error);
      }
      integ := b.value;
      return None;
    }

    /**
     * `propagate`: runs the integrator and hands out its step count and its
     * arrays, whose first `steps` slots now hold the trajectory from the
     * integrator's slot 0.
     */
    method Propagate() returns (d: SimData)
      requires Ready() && integ.steps <= integ.posArr.Length
      modifies integ`deltaT, integ.posArr, integ.velArr
      ensures Ready() && integ.steps == old(integ.steps)
      ensures d == SimData(integ.steps, integ.timeArr, integ.posArr, integ.velArr)
      ensures integ.deltaT == Quot(libm, old(integ.deltaT), integ.dims.t) * integ.dims.t
      ensures integ.dims.t != 0.0 ==> integ.deltaT == old(integ.deltaT)
      ensures forall j :: d.steps <= j < d.posArr.Length ==>
        d.posArr[j] == old(integ.posArr[j]) && d.velArr[j] == old(integ.velArr[j])
      ensures integ.dims.r != 0.0 && integ.dims.v != 0.0 ==>
        d.posArr[0] == old(integ.posArr[0]) && d.velArr[0] == old(integ.velArr[0])
      ensures forall j :: 0 <= j < d.steps ==>
        CartElem(d.posArr[j], d.velArr[j])
          == Integrated(integ.kind, libm, OrbitEquations(libm), integ.dims,
                        CartElem(old(integ.posArr[0]), old(integ.velArr[0])), old(integ.deltaT), d.steps)[j]
    {
      integ.Integrate();
      d := SimData(integ.steps, integ.timeArr, integ.posArr, integ.velArr);
    }
  }
}
