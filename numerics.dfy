/**
 * Numbers as the profile code sees them: reals that may be missing (NaN),
 * plane vectors, and the square root the code takes from NumPy.
 */
module Numerics {

  /** A value that may be absent; for numbers, `None` stands for NaN. */
  datatype Option<+T> = None | Some(value: T)

  /** A point or a direction in the (x, y) plane. */
  datatype Vec = Vec(x: real, y: real)

  function Sub(a: Vec, b: Vec): Vec { Vec(a.x - b.x, a.y - b.y) }

  function Dot(a: Vec, b: Vec): real { a.x * b.x + a.y * b.y }

  /** The z component of the cross product: negative when b lies to the right of a. */
  function Cross(a: Vec, b: Vec): real { a.x * b.y - a.y * b.x }

  function Scale(k: real, a: Vec): Vec { Vec(k * a.x, k * a.y) }

  function Neg(a: Vec): Vec { Vec(-a.x, -a.y) }

  function SquaredNorm(a: Vec): real { Dot(a, a) }

  /**
   * The square root is supplied by NumPy; the model takes it as a parameter
   * and states, where a property needs it, that it is the real square root.
   */
  ghost predicate IsSqrt(sqrt: real -> real)
  {
    forall x: real {:trigger RootOf(sqrt, x)} :: x >= 0.0 ==> sqrt(x) >= 0.0 && sqrt(x) * sqrt(x) == x
  }

  /**
   * The root of x; proofs name this term (through SqrtPositive) to use the
   * square-root property at x, so the property is not applied to every root in sight.
   */
  ghost function RootOf(sqrt: real -> real, x: real): real { sqrt(x) }

  /** NaN-propagating arithmetic on possibly missing numbers. */
  function AddN(a: Option<real>, b: Option<real>): Option<real>
  {
    if a.Some? && b.Some? then Some(a.value + b.value) else None
  }

  function SubN(a: Option<real>, b: Option<real>): Option<real>
  {
    if a.Some? && b.Some? then Some(a.value - b.value) else None
  }

  function MulN(a: Option<real>, b: Option<real>): Option<real>
  {
    if a.Some? && b.Some? then Some(a.value * b.value) else None
  }

  /** r is the non-negative square root of x. */
  ghost predicate IsRootOf(r: real, x: real)
  {
    r >= 0.0 && r * r == x
  }

  /** A non-negative number has exactly one non-negative root. */
  lemma SqrtUnique(x: real, r: real, s: real)
    requires IsRootOf(r, x) && IsRootOf(s, x)
    ensures r == s
  {
    if r < s {
      SquareStrictlyIncreasing(r, s);
    } else if s < r {
      SquareStrictlyIncreasing(s, r);
    }
  }

  lemma SquareStrictlyIncreasing(a: real, b: real)
    requires 0.0 <= a < b
    ensures a * a < b * b
  {
    calc {
      a * a;
    <= a * b;
    < b * b;
    }
  }

  /** The root of a positive number is positive, of zero is zero. */
  lemma SqrtPositive(sqrt: real -> real, x: real)
    requires IsSqrt(sqrt) && x >= 0.0
    ensures IsRootOf(sqrt(x), x)
    ensures sqrt(x) == 0.0 <==> x == 0.0
  {
    var s := RootOf(sqrt, x);
    assert s >= 0.0 && s * s == x;
    if x == 0.0 {
      SqrtUnique(x, s, 0.0);
    }
  }

  /** Taking a positive factor out of the root: sqrt(k*k*x) == k*sqrt(x). */
  lemma SqrtScale(sqrt: real -> real, k: real, x: real)
    requires IsSqrt(sqrt) && k > 0.0 && x >= 0.0
    ensures sqrt(k * k * x) == k * sqrt(x)
  {
    SqrtPositive(sqrt, x);
    var s := sqrt(x);
    assert k * s >= 0.0;
    assert (k * s) * (k * s) == k * k * (s * s);
    assert k * k * x >= 0.0;
    SqrtPositive(sqrt, k * k * x);
    SqrtUnique(k * k * x, sqrt(k * k * x), k * s);
  }

  lemma SquareNonNegative(a: real)
    ensures a * a >= 0.0
    ensures a * a == 0.0 <==> a == 0.0
  {
    if a > 0.0 {
      SquareStrictlyIncreasing(0.0, a);
    } else if a < 0.0 {
      SquareStrictlyIncreasing(0.0, -a);
      assert (-a) * (-a) == a * a;
    }
  }

  /** A sum of two squares is non-negative, and zero only when both terms are. */
  lemma SumOfSquares(a: real, b: real)
    ensures a * a + b * b >= 0.0
    ensures a * a + b * b == 0.0 <==> a == 0.0 && b == 0.0
  {
    SquareNonNegative(a);
    SquareNonNegative(b);
  }

  /** Multiplying by the reciprocal of a non-zero number cancels it. */
  lemma ReciprocalSquared(len: real)
    requires len != 0.0
    ensures (1.0 / len) * (1.0 / len) * (len * len) == 1.0
  {
    var inv := 1.0 / len;
    assert inv * len == 1.0;
    calc {
      inv * inv * (len * len);
      (inv * len) * (inv * len);
      1.0;
    }
  }

  /** The squared length of p1 - p0 is non-negative, and zero exactly when the points coincide. */
  lemma DifferenceVanishes(p0: Vec, p1: Vec)
    ensures SquaredNorm(Sub(p1, p0)) >= 0.0
    ensures SquaredNorm(Sub(p1, p0)) == 0.0 <==> p0 == p1
  {
    var d := Sub(p1, p0);
    SumOfSquares(d.x, d.y);
    if d.x == 0.0 && d.y == 0.0 {
      assert p0 == Vec(p0.x, p0.y) == Vec(p1.x, p1.y) == p1;
    }
  }
}
