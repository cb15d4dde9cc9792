/**
 * The floating-point environment the simulation runs in: the constants of
 * math_obj.hpp, the C maths library functions it calls, IEEE division, and
 * the double-to-int conversion.
 *
 * Scalars are Dafny `real`s. The library functions (sqrt, acos, atan2, sin,
 * cos) are not computed here: a `Libm` value carries them, and `Lawful`
 * states the only facts the model relies on.
 */
module Numerics {

  /** `orbsim::PI` from math_obj.hpp. */
  const PI: real := 3.14159265358979323846

  /** The gravitational constant `orbsim::G` from math_obj.hpp, 6.67430e-11. */
  const G: real := 0.0000000000667430

  /**
   * The maths library. `divByZero(a)` is what `a / 0.0` yields; IEEE makes
   * it +inf, -inf or NaN, and this model leaves it unspecified.
   */
  datatype Libm = Libm(
    sqrt: real -> real,
    acos: real -> real,
    atan2: (real, real) -> real,
    sin: real -> real,
    cos: real -> real,
    divByZero: real -> real)

  /**
   * The facts about the library that the proofs use: `sqrt` is the
   * non-negative root, `acos` maps [-1, 1] into [0, PI], and
   * `sin(t)^2 + cos(t)^2 == 1`.
   */
  ghost predicate Lawful(m: Libm) {
    && (forall y :: 0.0 <= y ==> 0.0 <= m.sqrt(y) && m.sqrt(y) * m.sqrt(y) == y)
    && (forall c :: -1.0 <= c <= 1.0 ==> 0.0 <= m.acos(c) <= PI)
    && (forall t :: m.sin(t) * m.sin(t) + m.cos(t) * m.cos(t) == 1.0)
  }

  /** Floating-point division `a / b`. */
  function Quot(m: Libm, a: real, b: real): (r: real)
    ensures b != 0.0 ==> r * b == a
  {
    if b != 0.0 then a / b else m.divByZero(a)
  }

  /** `std::fabs`. */
  function Abs(x: real): (r: real)
    ensures 0.0 <= r && (r == x || r == -x)
  {
    if x < 0.0 then -x else x
  }

  /** `std::clamp(v, lo, hi)`: `v < lo ? lo : hi < v ? hi : v`. */
  function Clamp(v: real, lo: real, hi: real): (r: real)
    requires lo <= hi
    ensures lo <= r <= hi
    ensures lo <= v <= hi ==> r == v
    ensures v < lo ==> r == lo
    ensures hi < v ==> r == hi
  {
    if v < lo then lo else if hi < v then hi else v
  }

  /** The implicit conversion of a `double` to `int`, which truncates toward zero. */
  function Trunc(x: real): (n: int)
    ensures 0.0 <= x ==> n as real <= x < n as real + 1.0
    ensures x < 0.0 ==> n as real - 1.0 < x <= n as real
  {
    if 0.0 <= x then x.Floor else -((-x).Floor)
  }

  /** A positive number has a positive root. */
  lemma SqrtPositive(m: Libm, y: real)
    requires Lawful(m) && 0.0 < y
    ensures 0.0 < m.sqrt(y)
  {
  }

  /** The quotient of two positive numbers is positive. */
  lemma QuotPositive(m: Libm, a: real, b: real)
    requires 0.0 < a && 0.0 < b
    ensures 0.0 < Quot(m, a, b)
  {
    var q := Quot(m, a, b);
    assert q * b == a;
    if q <= 0.0 {
      calc { a; == q * b; <= 0.0 * b; }
    }
  }

  /** The product of two positive numbers is positive. */
  lemma ProductPositive(a: real, b: real)
    requires 0.0 < a && 0.0 < b
    ensures 0.0 < a * b
  {
    calc { a * b; > 0.0 * b; }
  }

  /** A factor equal to one can be dropped. */
  lemma MulByOne(x: real, y: real)
    requires y == 1.0
    ensures x * y == x
  {
  }

  /** A factor equal to zero makes the product zero. */
  lemma MulByZero(x: real, y: real)
    requires y == 0.0
    ensures x * y == 0.0
  {
  }

  /** A square is never negative. */
  lemma SquareNonNegative(r: real)
    ensures 0.0 <= r * r
  {
    if r < 0.0 {
      calc { r * r; == (-r) * (-r); >= 0.0 * (-r); }
    } else {
      calc { r * r; >= 0.0 * r; }
    }
  }

  /** The square of a non-zero number is positive. */
  lemma SquarePositive(r: real)
    requires r != 0.0
    ensures 0.0 < r * r
  {
    if r < 0.0 {
      calc { r * r; == (-r) * (-r); > 0.0 * (-r); }
    } else {
      calc { r * r; > 0.0 * r; }
    }
  }

  /** The only factor that leaves a positive number unchanged is one. */
  lemma UnitFactor(d: real, q: real)
    requires 0.0 < q && d * q == q
    ensures d == 1.0
  {
    calc { d; == (d * q) / q; == q / q; == 1.0; }
  }

  /** Squaring is strictly increasing on the non-negative reals. */
  lemma SquareStrictlyIncreasing(a: real, b: real)
    requires 0.0 <= a
    ensures a < b ==> a * a < b * b
  {
    if a < b {
      assert 0.0 <= a * (b - a) == a * b - a * a;
      assert 0.0 < b * (b - a) == b * b - a * b;
    }
  }

  /** The root is the non-negative one: `sqrt(c * c) == c` for `c >= 0`. */
  lemma SqrtOfSquare(m: Libm, c: real, y: real)
    requires Lawful(m) && 0.0 <= c && c * c == y
    ensures m.sqrt(y) == c
  {
    SquareNonNegative(c);
    var s := m.sqrt(y);
    assert 0.0 <= s && s * s == y;
    SquareStrictlyIncreasing(c, s);
    SquareStrictlyIncreasing(s, c);
  }

  /** A number whose square is at most `y` is at most `sqrt(y)` in absolute value. */
  lemma AbsBoundedBySqrt(m: Libm, c: real, y: real)
    requires Lawful(m) && c * c <= y
    ensures Abs(c) <= m.sqrt(y)
  {
    var s := m.sqrt(y);
    assert 0.0 <= c * c;
    assert 0.0 <= s && s * s == y;
    var a := Abs(c);
    assert a * a == c * c;
    SquareStrictlyIncreasing(s, a);
  }
}
