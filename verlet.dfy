/** The velocity Verlet scheme of verlet.cpp. */
module VerletScheme {
  import opened MathObj
  import opened DiffEq

  /**
   * One pass of the loop in `Verlet::integrate`: a half kick of the
   * velocity, a full drift of the position with the half-step velocity, and
   * a second half kick evaluated at the new position.
   */
  function Step(eqs: seq<Vec3 -> Vec3>, s: CartElem, h: real): CartElem
    requires |eqs| > 2
  {
    var velHalf := s.vel.Add(eqs[2](s.pos).Mul(h / 2.0));
    var pos := s.pos.Add(eqs[1](velHalf).Mul(h));
    CartElem(pos, velHalf.Add(eqs[2](pos).Mul(h / 2.0)))
  }

  /** A step of length zero leaves the state as it is. */
  lemma ZeroStepIsIdentity(eqs: seq<Vec3 -> Vec3>, s: CartElem)
    requires |eqs| > 2
    ensures Step(eqs, s, 0.0) == s
  {
  }

  /**
   * With the orbit equations the new position is the second-order Taylor
   * step `x + v h + a(x) h^2 / 2`, and the new velocity averages the
   * accelerations at both ends.
   */
  lemma OrbitStep(m: Numerics.Libm, s: CartElem, h: real)
    ensures Step(OrbitEquations(m), s, h).pos
         == s.pos.Add(s.vel.Mul(h)).Add(Accel(m, s.pos).Mul(h * h / 2.0))
    ensures Step(OrbitEquations(m), s, h).vel
         == s.vel.Add(Accel(m, s.pos).Mul(h / 2.0))
                 .Add(Accel(m, Step(OrbitEquations(m), s, h).pos).Mul(h / 2.0))
  {
    var eqs := OrbitEquations(m);
    var a := Accel(m, s.pos);
    var velHalf := s.vel.Add(a.Mul(h / 2.0));
    assert eqs[2](s.pos) == a;
    assert eqs[1](velHalf) == velHalf;
    assert Step(eqs, s, h).pos == s.pos.Add(velHalf.Mul(h));
    DriftWithHalfKick(s.pos, s.vel, a, h);
  }

  /** Under a constant acceleration the Verlet step is exact. */
  lemma ExactForUniformAcceleration(a: Vec3, s: CartElem, h: real)
    ensures Step(UniformField(a), s, h) == UniformMotion(s, a, h)
  {
    var eqs := UniformField(a);
    var velHalf := s.vel.Add(a.Mul(h / 2.0));
    assert eqs[2](s.pos) == a;
    assert eqs[1](velHalf) == velHalf;
    var pos := s.pos.Add(velHalf.Mul(h));
    assert eqs[2](pos) == a;
    DriftWithHalfKick(s.pos, s.vel, a, h);
    assert Step(eqs, s, h) == CartElem(pos, velHalf.Add(a.Mul(h / 2.0)));
  }
}
