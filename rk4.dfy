/** The classical fourth-order Runge-Kutta scheme of rk4.cpp. */
module RK4Scheme {
  import opened Numerics
  import opened MathObj
  import opened DiffEq

  /** `(k0 + 2*k1 + 2*k2 + k3)/6`, with the vector division of the source. */
  function Weighted(m: Libm, k0: Vec3, k1: Vec3, k2: Vec3, k3: Vec3): Vec3 {
    k0.Add(ScalarMul(2.0, k1)).Add(ScalarMul(2.0, k2)).Add(k3).Div(m, 6.0)
  }

  /**
   * One pass of the loop in `RK4::integrate`: four slopes, at the current
   * state, twice at the half step and once at the full step, combined with
   * weights 1, 2, 2, 1.
   */
  function Step(m: Libm, eqs: seq<Vec3 -> Vec3>, s: CartElem, h: real): CartElem
    requires |eqs| > 2
  {
    var k0 := Derivative(eqs, s);
    var k1 := Derivative(eqs, CartElem(s.pos.Add(k0.pos.Mul(h / 2.0)), s.vel.Add(k0.vel.Mul(h / 2.0))));
    var k2 := Derivative(eqs, CartElem(s.pos.Add(k1.pos.Mul(h / 2.0)), s.vel.Add(k1.vel.Mul(h / 2.0))));
    var k3 := Derivative(eqs, CartElem(s.pos.Add(k2.pos.Mul(h)), s.vel.Add(k2.vel.Mul(h))));
    CartElem(s.pos.Add(Weighted(m, k0.pos, k1.pos, k2.pos, k3.pos).Mul(h)),
             s.vel.Add(Weighted(m, k0.vel, k1.vel, k2.vel, k3.vel).Mul(h)))
  }

  /** Equal weights average: four copies of one slope combine to that slope. */
  lemma WeightedOfEqual(m: Libm, k: Vec3)
    ensures Weighted(m, k, k, k, k) == k
  {
  }

  /** A step of length zero leaves the state as it is. */
  lemma ZeroStepIsIdentity(m: Libm, eqs: seq<Vec3 -> Vec3>, s: CartElem)
    requires |eqs| > 2
    ensures Step(m, eqs, s, 0.0) == s
  {
  }

  /** Under a constant acceleration the RK4 step is exact. */
  lemma ExactForUniformAcceleration(m: Libm, a: Vec3, s: CartElem, h: real)
    ensures Step(m, UniformField(a), s, h) == UniformMotion(s, a, h)
  {
    var eqs := UniformField(a);
    var v := s.vel;
    var vHalf := v.Add(a.Mul(h / 2.0));
    var vFull := v.Add(a.Mul(h));
    assert Derivative(eqs, s) == CartElem(v, a);
    assert Derivative(eqs, CartElem(s.pos.Add(v.Mul(h / 2.0)), vHalf)) == CartElem(vHalf, a);
    assert Derivative(eqs, CartElem(s.pos.Add(vHalf.Mul(h / 2.0)), vHalf)) == CartElem(vHalf, a);
    assert Derivative(eqs, CartElem(s.pos.Add(vHalf.Mul(h)), vFull)) == CartElem(vFull, a);
    WeightedOfEqual(m, a);
    WeightedOfUniformSlopes(m, v, a, h);
    DriftWithHalfKick(s.pos, v, a, h);
    assert Step(m, eqs, s, h) == CartElem(s.pos.Add(vHalf.Mul(h)), v.Add(a.Mul(h)));
  }

  /** The slopes `v`, `v + a h/2` twice and `v + a h` average to the midpoint velocity. */
  lemma WeightedOfUniformSlopes(m: Libm, v: Vec3, a: Vec3, h: real)
    ensures Weighted(m, v, v.Add(a.Mul(h / 2.0)), v.Add(a.Mul(h / 2.0)), v.Add(a.Mul(h)))
            == v.Add(a.Mul(h / 2.0))
  {
  }
}
