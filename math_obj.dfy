/**
 * The vector algebra of math_obj.cpp and the two state records of
 * math_obj.hpp. `Vec3` is a value type: every operator returns a new vector,
 * except `*=` and `/=`, which update a vector where it is stored; here that
 * storage is an array slot, which is how the integrators use them.
 */
module MathObj {
  import opened Numerics

  /** The absolute per-component tolerance of `Vec3::operator==`. */
  const EPSILON: real := 0.00000001

  /** A 3-component vector of doubles. */
  datatype Vec3 = Vec3(x: real, y: real, z: real) {

    /** `operator+` */
    function Add(rhs: Vec3): Vec3 {
      Vec3(x + rhs.x, y + rhs.y, z + rhs.z)
    }

    /** binary `operator-` */
    function Sub(rhs: Vec3): Vec3 {
      Vec3(x - rhs.x, y - rhs.y, z - rhs.z)
    }

    /** unary `operator-` */
    function Neg(): Vec3 {
      Vec3(-x, -y, -z)
    }

    /** `v * scalar`, which the source computes as `scalar * v`. */
    function Mul(scalar: real): Vec3 {
      ScalarMul(scalar, this)
    }

    /** `operator/`: each component divided by `scalar`. */
    function Div(m: Libm, scalar: real): Vec3 {
      Vec3(Quot(m, x, scalar), Quot(m, y, scalar), Quot(m, z, scalar))
    }

    /** `operator==`: every component pair differs by less than `EPSILON`. */
    predicate Eq(other: Vec3) {
      && Abs(x - other.x) < EPSILON
      && Abs(y - other.y) < EPSILON
      && Abs(z - other.z) < EPSILON
    }

    /** `operator!=` */
    predicate Neq(other: Vec3) {
      !Eq(other)
    }

    /** `len()`: the square root of the sum of the squared components, `dot(v, v)`. */
    function Len(m: Libm): real {
      m.sqrt(Dot(this))
    }

    /** `norm()`: the vector divided by its length. */
    function Norm(m: Libm): Vec3 {
      Div(m, Len(m))
    }

    /** `dot()` */
    function Dot(other: Vec3): real {
      x * other.x + y * other.y + z * other.z
    }

    /** `cross()`, the right-handed component formula. */
    function Cross(other: Vec3): Vec3 {
      Vec3(y * other.z - z * other.y,
           z * other.x - x * other.z,
           x * other.y - y * other.x)
    }

    /**
     * `to_str()`. `fmt` renders one double as the stream does after
     * `setf(fixed)` and `precision(8)`.
     */
    function ToStr(fmt: real -> string): string {
      "[" + fmt(x) + "  " + fmt(y) + "  " + fmt(z) + "]"
    }
  }

  /** The value-initialised vector `Vec3{}`. */
  const Zero: Vec3 := Vec3(0.0, 0.0, 0.0)

  /** The free `operator*(double, const Vec3 &)`. */
  function ScalarMul(scalar: real, v: Vec3): Vec3 {
    Vec3(scalar * v.x, scalar * v.y, scalar * v.z)
  }

  /** Cartesian state vectors: position [km] and velocity [km/s]. */
  datatype CartElem = CartElem(pos: Vec3, vel: Vec3)

  /** Keplerian orbital elements; lengths in km, angles in radians. */
  datatype KeplElem = KeplElem(
    ecc: real,
    semMajAx: real,
    inc: real,
    riAscNode: real,
    argOfPer: real,
    trueAnom: real)

  /** `a[i] *= scalar`: scales the vector stored in slot `i` and nothing else. */
  method MulAssign(a: array<Vec3>, i: nat, scalar: real)
    requires i < a.Length
    modifies a
    ensures a[i] == ScalarMul(scalar, old(a[i]))
    ensures forall j :: 0 <= j < a.Length && j != i ==> a[j] == old(a[j])
  {
    a[i] := Vec3(a[i].x * scalar, a[i].y * scalar, a[i].z * scalar);
  }

  /** `a[i] /= scalar`, implemented as `a[i] *= 1/scalar`. */
  method DivAssign(m: Libm, a: array<Vec3>, i: nat, scalar: real)
    requires i < a.Length
    modifies a
    ensures a[i] == old(a[i]).Mul(Quot(m, 1.0, scalar))
    ensures forall j :: 0 <= j < a.Length && j != i ==> a[j] == old(a[j])
    ensures scalar != 0.0 ==> a[i] == old(a[i]).Div(m, scalar)
  {
    MulAssign(a, i, Quot(m, 1.0, scalar));
    if scalar != 0.0 {
      DivIsMulByReciprocal(m, old(a[i]), scalar);
    }
  }

  /** Scaling by a number and then by its reciprocal, in either order, gives the vector back. */
  lemma ScaleRoundTrip(v: Vec3, s: real, q: real)
    requires q * s == 1.0
    ensures v.Mul(q).Mul(s) == v && v.Mul(s).Mul(q) == v
  {
    assert v.x * q * s == v.x * (q * s);
    assert v.y * q * s == v.y * (q * s);
    assert v.z * q * s == v.z * (q * s);
  }

  /** Binary minus is addition of the negation. */
  lemma SubIsAddNeg(v: Vec3, w: Vec3)
    ensures v.Sub(w) == v.Add(w.Neg())
  {
  }

  /** `v * s` and `s * v` agree, and both scale every component. */
  lemma MulCommutes(v: Vec3, s: real)
    ensures v.Mul(s) == ScalarMul(s, v) == Vec3(v.x * s, v.y * s, v.z * s)
  {
  }

  /** Over the reals, multiplying by `1/s` is dividing by `s` when `s` is not zero. */
  lemma DivIsMulByReciprocal(m: Libm, v: Vec3, s: real)
    requires s != 0.0
    ensures v.Mul(Quot(m, 1.0, s)) == v.Div(m, s)
  {
  }

  /** Tolerance equality is reflexive and symmetric, and `!=` is its negation. */
  lemma EqIsReflexiveAndSymmetric(v: Vec3, w: Vec3)
    ensures v.Eq(v)
    ensures v.Eq(w) == w.Eq(v)
    ensures v.Neq(w) == !v.Eq(w)
  {
  }

  /** Tolerance equality is not transitive. */
  lemma EqIsNotTransitive()
    ensures Zero.Eq(Vec3(0.000000006, 0.0, 0.0))
    ensures Vec3(0.000000006, 0.0, 0.0).Eq(Vec3(0.000000012, 0.0, 0.0))
    ensures !Zero.Eq(Vec3(0.000000012, 0.0, 0.0))
  {
  }

  /** Vectors that are equal as values are equal within tolerance. */
  lemma EqualVectorsAreEq(v: Vec3, w: Vec3)
    requires v == w
    ensures v.Eq(w) && !v.Neq(w)
  {
  }

  /** `dot` is commutative. */
  lemma DotCommutes(v: Vec3, w: Vec3)
    ensures v.Dot(w) == w.Dot(v)
  {
  }

  /** `dot(v, v)` is the sum of the squared components, so it is never negative. */
  lemma DotSelfNonNegative(v: Vec3)
    ensures 0.0 <= v.Dot(v)
  {
    SquareNonNegative(v.x);
    SquareNonNegative(v.y);
    SquareNonNegative(v.z);
    calc { v.Dot(v); == v.x * v.x + v.y * v.y + v.z * v.z; >= 0.0; }
  }

  /** `dot(v, v)` is positive for every non-zero vector. */
  lemma DotSelfPositive(v: Vec3)
    requires v != Zero
    ensures 0.0 < v.Dot(v)
  {
    SquareNonNegative(v.x);
    SquareNonNegative(v.y);
    SquareNonNegative(v.z);
    if v.x != 0.0 {
      SquarePositive(v.x);
    } else if v.y != 0.0 {
      SquarePositive(v.y);
    } else {
      SquarePositive(v.z);
    }
    calc { v.Dot(v); == v.x * v.x + v.y * v.y + v.z * v.z; > 0.0; }
  }

  /** `len(v)` is the non-negative square root of `dot(v, v)`. */
  lemma LenIsRootOfDot(m: Libm, v: Vec3)
    requires Lawful(m)
    ensures 0.0 <= v.Len(m)
    ensures v.Len(m) * v.Len(m) == v.Dot(v)
  {
    DotSelfNonNegative(v);
    assert v.Len(m) == m.sqrt(v.Dot(v));
  }

  /** Only the zero vector has length zero. */
  lemma LenZeroIffZero(m: Libm, v: Vec3)
    requires Lawful(m)
    ensures v.Len(m) == 0.0 <==> v == Zero
  {
    assert v.Len(m) == m.sqrt(v.Dot(v));
    if v != Zero {
      DotSelfPositive(v);
      SqrtPositive(m, v.Dot(v));
    } else {
      SqrtOfSquare(m, 0.0, v.Dot(v));
    }
  }

  /** A non-zero vector divided by its length has length one. */
  lemma NormHasUnitLength(m: Libm, v: Vec3)
    requires Lawful(m) && v != Zero
    ensures v.Norm(m).Len(m) == 1.0
  {
    var l := v.Len(m);
    LenIsRootOfDot(m, v);
    LenZeroIffZero(m, v);
    var u := v.Norm(m);
    assert u.x * l == v.x && u.y * l == v.y && u.z * l == v.z;
    SquarePositive(l);
    calc {
      u.Dot(u) * (l * l);
      == (u.x * l) * (u.x * l) + (u.y * l) * (u.y * l) + (u.z * l) * (u.z * l);
      == v.Dot(v);
      == l * l;
    }
    UnitFactor(u.Dot(u), l * l);
    SqrtOfSquare(m, 1.0, u.Dot(u));
  }

  /** Dividing by a non-zero scalar is scaling by its reciprocal. */
  lemma DivIsScaling(m: Libm, v: Vec3, s: real)
    requires s != 0.0
    ensures v.Div(m, s) == ScalarMul(1.0 / s, v)
  {
  }

  /** Scaling a vector by `s` scales its squared length by `s * s`. */
  lemma DotOfScaled(s: real, v: Vec3)
    ensures ScalarMul(s, v).Dot(ScalarMul(s, v)) == (s * s) * v.Dot(v)
  {
  }

  /** `len(s * v) == |s| * len(v)`. */
  lemma LenOfScaled(m: Libm, s: real, v: Vec3)
    requires Lawful(m)
    ensures ScalarMul(s, v).Len(m) == Abs(s) * v.Len(m)
  {
    LenIsRootOfDot(m, v);
    ScaledRoot(m, s, v, v.Len(m));
  }

  lemma ScaledRoot(m: Libm, s: real, v: Vec3, l: real)
    requires Lawful(m) && 0.0 <= l && l * l == v.Dot(v)
    ensures ScalarMul(s, v).Len(m) == Abs(s) * l
  {
    assert 0.0 <= Abs(s) * l by {
      calc { Abs(s) * l; >= 0.0 * l; }
    }
    DotOfScaled(s, v);
    calc {
      ScalarMul(s, v).Dot(ScalarMul(s, v));
      == (s * s) * (l * l);
      == (Abs(s) * l) * (Abs(s) * l);
    }
    SqrtOfSquare(m, Abs(s) * l, ScalarMul(s, v).Dot(ScalarMul(s, v)));
  }

  /** `cross` is anti-commutative. */
  lemma CrossAntiCommutes(a: Vec3, b: Vec3)
    ensures a.Cross(b) == b.Cross(a).Neg()
  {
  }

  /** A vector crossed with a multiple of itself gives the zero vector. */
  lemma ParallelCrossIsZero(k: real, v: Vec3)
    ensures ScalarMul(k, v).Cross(v) == Zero
  {
  }

  /** Any vector crossed with the zero vector gives the zero vector. */
  lemma CrossWithZero(v: Vec3)
    ensures v.Cross(Zero) == Zero
  {
  }

  /** Scaling the negation is scaling by the negated factor. */
  lemma ScaledNeg(k: real, v: Vec3)
    ensures ScalarMul(k, v.Neg()) == ScalarMul(-k, v)
  {
  }

  /** Negation keeps the length. */
  lemma LenOfNeg(m: Libm, v: Vec3)
    ensures v.Neg().Len(m) == v.Len(m)
  {
    assert v.Neg().Dot(v.Neg()) == v.Dot(v);
  }

  /** `len(v / c) == len(v) / |c|` for a non-zero divisor. */
  lemma LenOfDivided(m: Libm, v: Vec3, c: real)
    requires Lawful(m) && c != 0.0
    ensures v.Div(m, c).Len(m) == Abs(1.0 / c) * v.Len(m)
  {
    DivIsScaling(m, v, c);
    LenOfScaled(m, 1.0 / c, v);
  }

  /** The cross product is orthogonal to both of its factors. */
  lemma CrossIsOrthogonal(a: Vec3, b: Vec3)
    ensures a.Dot(a.Cross(b)) == 0.0
    ensures b.Dot(a.Cross(b)) == 0.0
  {
  }

  /** The position of the first space in `s`, or `|s|` when it has none. */
  function FirstSpace(s: string): nat {
    if s == [] || s[0] == ' ' then 0 else 1 + FirstSpace(s[1..])
  }

  lemma {:induction false} FirstSpaceAfterWord(w: string, rest: string)
    requires ' ' !in w && rest != [] && rest[0] == ' '
    ensures FirstSpace(w + rest) == |w|
  {
    if w != [] {
      assert (w + rest)[1..] == w[1..] + rest;
      FirstSpaceAfterWord(w[1..], rest);
    }
  }

  /** A space-free word followed by a space is determined by the whole string. */
  lemma WordBeforeSpace(a: string, s: string, b: string, t: string)
    requires ' ' !in a && ' ' !in b
    requires s != [] && s[0] == ' ' && t != [] && t[0] == ' '
    requires a + s == b + t
    ensures a == b && s == t
  {
    FirstSpaceAfterWord(a, s);
    FirstSpaceAfterWord(b, t);
    assert a == (a + s)[..|a|];
    assert b == (b + t)[..|b|];
    assert s == (a + s)[|a|..];
    assert t == (b + t)[|b|..];
  }

  /**
   * When the number format never emits a space, `to_str` loses nothing: the
   * three renderings can be read back from the string.
   */
  lemma ToStrIsInjective(fmt: real -> string, v: Vec3, w: Vec3)
    requires forall r :: ' ' !in fmt(r)
    requires v.ToStr(fmt) == w.ToStr(fmt)
    ensures fmt(v.x) == fmt(w.x) && fmt(v.y) == fmt(w.y) && fmt(v.z) == fmt(w.z)
  {
    var sp := "  ";
    var s1 := sp + fmt(v.y) + sp + fmt(v.z) + "]";
    var t1 := sp + fmt(w.y) + sp + fmt(w.z) + "]";
    assert v.ToStr(fmt) == "[" + (fmt(v.x) + s1);
    assert w.ToStr(fmt) == "[" + (fmt(w.x) + t1);
    assert fmt(v.x) + s1 == v.ToStr(fmt)[1..];
    assert fmt(w.x) + t1 == w.ToStr(fmt)[1..];
    WordBeforeSpace(fmt(v.x), s1, fmt(w.x), t1);
    TailIsInjective(fmt(v.y), fmt(v.z), fmt(w.y), fmt(w.z));
  }

  /** The part of `to_str` after the first number determines the other two numbers. */
  lemma TailIsInjective(y: string, z: string, y': string, z': string)
    requires ' ' !in y && ' ' !in y'
    requires "  " + y + "  " + z + "]" == "  " + y' + "  " + z' + "]"
    ensures y == y' && z == z'
  {
    var sp := "  ";
    var s1 := sp + y + sp + z + "]";
    var t1 := sp + y' + sp + z' + "]";
    var s2 := sp + z + "]";
    var t2 := sp + z' + "]";
    assert s1 == sp + (y + s2);
    assert t1 == sp + (y' + t2);
    assert y + s2 == s1[2..];
    assert y' + t2 == t1[2..];
    WordBeforeSpace(y, s2, y', t2);
    assert z == s2[2..|s2| - 1];
    assert z' == t2[2..|t2| - 1];
  }
}
