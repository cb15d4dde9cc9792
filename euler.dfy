/** The explicit Euler scheme of euler.cpp. */
module EulerScheme {
  import opened MathObj
  import opened DiffEq

  /**
   * One pass of the loop in `Euler::integrate`: both derivatives are taken
   * at the current state and applied for one step `h`.
   */
  function Step(eqs: seq<Vec3 -> Vec3>, s: CartElem, h: real): CartElem
    requires |eqs| > 2
  {
    var d := Derivative(eqs, s);
    CartElem(s.pos.Add(d.pos.Mul(h)), s.vel.Add(d.vel.Mul(h)))
  }

  /** A step of length zero leaves the state as it is. */
  lemma ZeroStepIsIdentity(eqs: seq<Vec3 -> Vec3>, s: CartElem)
    requires |eqs| > 2
    ensures Step(eqs, s, 0.0) == s
  {
  }

  /** With the orbit equations the position moves along the current velocity. */
  lemma OrbitStep(m: Numerics.Libm, s: CartElem, h: real)
    ensures Step(OrbitEquations(m), s, h)
         == CartElem(s.pos.Add(s.vel.Mul(h)), s.vel.Add(Accel(m, s.pos).Mul(h)))
  {
  }

  /**
   * Under a constant acceleration the Euler step gets the velocity right and
   * misses the position by exactly `a * h^2 / 2`.
   */
  lemma UniformAccelerationError(a: Vec3, s: CartElem, h: real)
    ensures Step(UniformField(a), s, h).vel == UniformMotion(s, a, h).vel
    ensures Step(UniformField(a), s, h).pos.Add(a.Mul(h * h / 2.0)) == UniformMotion(s, a, h).pos
  {
  }
}
