/**
 * Polyline geometry of a profile: unit normals and tangentials at each
 * point, the profile axis used by profile extraction, and the cumulative
 * distance along the path.
 */
module Geometry {
  import opened Numerics

  /** The clockwise rotation of d, i.e. d turned by -90 degrees. */
  function RotateClockwise(d: Vec): Vec { Vec(d.y, -d.x) }

  /**
   * normal(point0, point1): rotate a = point0 - point1 to (-a.y, a.x), divide
   * by its length, and negate when the dot product with a is negative. When
   * the points coincide the division is 0/0 and both components are NaN.
   */
  function Normal(sqrt: real -> real, p0: Vec, p1: Vec): Option<Vec>
  {
    var a := Sub(p0, p1);
    var n := Vec(-a.y, a.x);
    var len := sqrt(SquaredNorm(n));
    if len == 0.0 then None
    else
      var u := Scale(1.0 / len, n);
      if Dot(a, u) < 0.0 then Some(Neg(u)) else Some(u)
  }

  /**
   * tangential(point0, point1): (point1 - point0) divided by its length, or
   * (point1 - point0) itself, the zero vector, when that length is zero.
   */
  function Tangential(sqrt: real -> real, p0: Vec, p1: Vec): (r: Vec)
    ensures p0 == p1 ==> r == Vec(0.0, 0.0)
  {
    var a := Sub(p1, p0);
    var norm := sqrt(SquaredNorm(a));
    if norm == 0.0 then a else Scale(1.0 / norm, a)
  }

  /** The clockwise rotation of d scaled to unit length; NaN when d has length zero. */
  function UnitRightOf(sqrt: real -> real, d: Vec): Option<Vec>
  {
    var len := sqrt(SquaredNorm(d));
    if len == 0.0 then None else Some(Scale(1.0 / len, RotateClockwise(d)))
  }

  /**
   * Over the reals the flip test in Normal can never fire (dot(a, n) is
   * identically zero), so the normal is always the clockwise rotation of
   * p1 - p0 scaled to unit length.
   */
  lemma NormalNeverFlips(sqrt: real -> real, p0: Vec, p1: Vec)
    ensures Normal(sqrt, p0, p1) == UnitRightOf(sqrt, Sub(p1, p0))
  {
    var a := Sub(p0, p1);
    var n := Vec(-a.y, a.x);
    var d := Sub(p1, p0);
    assert n == RotateClockwise(d);
    assert SquaredNorm(n) == SquaredNorm(d);
    var len := sqrt(SquaredNorm(n));
    if len != 0.0 {
      var u := Scale(1.0 / len, n);
      calc {
        Dot(a, u);
        a.x * ((1.0 / len) * -a.y) + a.y * ((1.0 / len) * a.x);
        (1.0 / len) * (a.x * -a.y + a.y * a.x);
        0.0;
      }
    }
  }

  /**
   * For distinct points the normal is the clockwise rotation of p1 - p0
   * scaled to unit length: it is a unit vector, perpendicular to p1 - p0,
   * and points to the right of the direction of travel. For coincident
   * points it is NaN.
   */
  lemma NormalIsUnitRightNormal(sqrt: real -> real, p0: Vec, p1: Vec)
    requires IsSqrt(sqrt)
    ensures Normal(sqrt, p0, p1).None? <==> p0 == p1
    ensures p0 != p1 ==>
              var n := Normal(sqrt, p0, p1).value;
              var d := Sub(p1, p0);
              && SquaredNorm(n) == 1.0
              && Dot(n, d) == 0.0
              && Cross(d, n) < 0.0
              && Scale(sqrt(SquaredNorm(d)), n) == RotateClockwise(d)
  {
    NormalNeverFlips(sqrt, p0, p1);
    var d := Sub(p1, p0);
    DifferenceVanishes(p0, p1);
    SqrtPositive(sqrt, SquaredNorm(d));
    if p0 != p1 {
      UnitRightNormal(d, sqrt(SquaredNorm(d)));
    }
  }

  /** The algebra behind NormalIsUnitRightNormal, for a given length len of d. */
  lemma UnitRightNormal(d: Vec, len: real)
    requires len > 0.0 && len * len == SquaredNorm(d)
    ensures var n := Scale(1.0 / len, RotateClockwise(d));
            && SquaredNorm(n) == 1.0 && Dot(n, d) == 0.0 && Cross(d, n) < 0.0
            && Scale(len, n) == RotateClockwise(d)
  {
    var inv := 1.0 / len;
    assert len * inv == 1.0;
    assert len * (inv * d.y) == d.y;
    assert len * (inv * -d.x) == -d.x;
    var n := Scale(inv, RotateClockwise(d));
    ReciprocalSquared(len);
    calc {
      SquaredNorm(n);
      (inv * d.y) * (inv * d.y) + (inv * -d.x) * (inv * -d.x);
      inv * inv * (d.x * d.x + d.y * d.y);
      inv * inv * (len * len);
      1.0;
    }
    calc {
      Dot(n, d);
      (inv * d.y) * d.x + (inv * -d.x) * d.y;
      inv * (d.y * d.x - d.x * d.y);
      0.0;
    }
    assert inv > 0.0;
    assert len * len > 0.0;
    calc {
      Cross(d, n);
      d.x * (inv * -d.x) - d.y * (inv * d.y);
      -(inv * (len * len));
    }
    assert inv * (len * len) > 0.0;
  }

  /**
   * For distinct points the tangential is the unit vector pointing from p0
   * to p1: unit length, parallel to p1 - p0 and in the same direction.
   */
  lemma TangentialIsUnitDirection(sqrt: real -> real, p0: Vec, p1: Vec)
    requires IsSqrt(sqrt) && p0 != p1
    ensures var t := Tangential(sqrt, p0, p1);
            var d := Sub(p1, p0);
            SquaredNorm(t) == 1.0 && Cross(d, t) == 0.0 && Dot(d, t) > 0.0
  {
    var d := Sub(p1, p0);
    DifferenceVanishes(p0, p1);
    SqrtPositive(sqrt, SquaredNorm(d));
    UnitDirection(d, sqrt(SquaredNorm(d)));
  }

  /** The algebra behind TangentialIsUnitDirection, for a given length len of d. */
  lemma UnitDirection(d: Vec, len: real)
    requires len > 0.0 && len * len == SquaredNorm(d)
    ensures var t := Scale(1.0 / len, d);
            SquaredNorm(t) == 1.0 && Cross(d, t) == 0.0 && Dot(d, t) > 0.0
  {
    var inv := 1.0 / len;
    var t := Scale(inv, d);
    ReciprocalSquared(len);
    calc {
      SquaredNorm(t);
      (inv * d.x) * (inv * d.x) + (inv * d.y) * (inv * d.y);
      inv * inv * (d.x * d.x + d.y * d.y);
      inv * inv * (len * len);
      1.0;
    }
    calc {
      Cross(d, t);
      d.x * (inv * d.y) - d.y * (inv * d.x);
      inv * (d.x * d.y - d.y * d.x);
      0.0;
    }
    assert inv > 0.0;
    assert len * len > 0.0;
    calc {
      Dot(d, t);
      d.x * (inv * d.x) + d.y * (inv * d.y);
      inv * (len * len);
    }
    assert inv * (len * len) > 0.0;
  }

  /** The normal depends only on the direction of p1 - p0, not on its length. */
  lemma NormalScaleInvariant(sqrt: real -> real, p0: Vec, p1: Vec, q0: Vec, q1: Vec, k: real)
    requires IsSqrt(sqrt) && k > 0.0
    requires Sub(p1, p0) == Scale(k, Sub(q1, q0))
    ensures Normal(sqrt, p0, p1) == Normal(sqrt, q0, q1)
  {
    NormalNeverFlips(sqrt, p0, p1);
    NormalNeverFlips(sqrt, q0, q1);
    UnitRightScaleInvariant(sqrt, k, Sub(q1, q0));
  }

  lemma UnitRightScaleInvariant(sqrt: real -> real, k: real, d: Vec)
    requires IsSqrt(sqrt) && k > 0.0
    ensures UnitRightOf(sqrt, Scale(k, d)) == UnitRightOf(sqrt, d)
  {
    var len := sqrt(SquaredNorm(d));
    var klen := sqrt(SquaredNorm(Scale(k, d)));
    ScaledLength(sqrt, k, d);
    assert klen == k * len;
    ScaledRotation(k, d, len);
    if len != 0.0 {
      assert klen != 0.0;
      assert UnitRightOf(sqrt, Scale(k, d)) == Some(Scale(1.0 / klen, RotateClockwise(Scale(k, d))));
    }
  }

  /** Scaling a vector by k > 0 scales its length by k. */
  lemma ScaledLength(sqrt: real -> real, k: real, d: Vec)
    requires IsSqrt(sqrt) && k > 0.0
    ensures sqrt(SquaredNorm(Scale(k, d))) == k * sqrt(SquaredNorm(d))
  {
    ScaledSquaredNorm(k, d);
    SqrtScale(sqrt, k, SquaredNorm(d));
  }

  lemma ScaledSquaredNorm(k: real, d: Vec)
    ensures SquaredNorm(d) >= 0.0
    ensures SquaredNorm(Scale(k, d)) == k * k * SquaredNorm(d)
  {
    SumOfSquares(d.x, d.y);
    calc {
      SquaredNorm(Scale(k, d));
      (k * d.x) * (k * d.x) + (k * d.y) * (k * d.y);
      k * k * (d.x * d.x + d.y * d.y);
    }
  }

  /** Rotating k*d and dividing by k*len gives the same vector as rotating d and dividing by len. */
  lemma ScaledRotation(k: real, d: Vec, len: real)
    requires k > 0.0
    ensures k * len == 0.0 <==> len == 0.0
    ensures len != 0.0 ==>
              Scale(1.0 / (k * len), RotateClockwise(Scale(k, d))) == Scale(1.0 / len, RotateClockwise(d))
  {
    if len != 0.0 {
      assert k * len != 0.0;
      assert 1.0 / (k * len) * (k * d.y) == 1.0 / len * d.y;
      assert 1.0 / (k * len) * -(k * d.x) == 1.0 / len * -d.x;
    }
  }

  /** The points of the profile, pairing the x and y coordinate arrays (np.vstack((px, py)).T). */
  function Points(px: seq<real>, py: seq<real>): (p: seq<Vec>)
    requires |px| == |py|
    ensures |p| == |px|
    ensures forall i {:trigger p[i]} :: 0 <= i < |p| ==> p[i] == Vec(px[i], py[i])
  {
    seq(|px|, i requires 0 <= i < |px| => Vec(px[i], py[i]))
  }

  /**
   * The pairs compute_normals and compute_tangentials use: point 0 uses
   * (0, 1), an interior point j uses (j - 1, j + 1), and the last point uses
   * (n - 2, n - 1).
   */
  function PairStart(n: nat, j: nat): nat
    requires 2 <= n && j < n
  {
    if j == 0 then 0 else if j == n - 1 then n - 2 else j - 1
  }

  function PairEnd(n: nat, j: nat): nat
    requires 2 <= n && j < n
  {
    if j == 0 then 1 else if j == n - 1 then n - 1 else j + 1
  }

  /**
   * Fills an array, initially all `zero` (np.zeros_like), with f applied to
   * the pair of points each index uses, as the loops of compute_normals and
   * compute_tangentials do.
   */
  method FillByPairs<T>(f: (Vec, Vec) -> T, p: seq<Vec>, zero: T) returns (r: seq<T>)
    requires |p| >= 2
    ensures |r| == |p|
    ensures r[0] == f(p[0], p[1])
    ensures forall j :: 0 < j < |p| - 1 ==> r[j] == f(p[j - 1], p[j + 1])
    ensures r[|p| - 1] == f(p[|p| - 2], p[|p| - 1])
  {
    var n := |p|;
    var ns := new T[n](_ => zero);
    ns[0] := f(p[0], p[1]);
    for j := 1 to n - 1
      invariant ns[0] == f(p[0], p[1])
      invariant forall k :: 0 < k < j ==> ns[k] == f(p[k - 1], p[k + 1])
    {
      ns[j] := f(p[j - 1], p[j + 1]);
    }
    ns[n - 1] := f(p[n - 2], p[n - 1]);
    r := ns[..];
  }

  /** The normal compute_normals stores at index j. */
  function NormalAt(sqrt: real -> real, p: seq<Vec>, j: nat): Option<Vec>
    requires 2 <= |p| && j < |p|
  {
    Normal(sqrt, p[PairStart(|p|, j)], p[PairEnd(|p|, j)])
  }

  /** The tangential compute_tangentials stores at index j. */
  function TangentialAt(sqrt: real -> real, p: seq<Vec>, j: nat): Vec
    requires 2 <= |p| && j < |p|
  {
    Tangential(sqrt, p[PairStart(|p|, j)], p[PairEnd(|p|, j)])
  }

  /** The x and y components of a possibly-NaN vector. */
  function XPart(v: Option<Vec>): Option<real> { if v.Some? then Some(v.value.x) else None }

  function YPart(v: Option<Vec>): Option<real> { if v.Some? then Some(v.value.y) else None }

  /**
   * The two series compute_normals returns: the placeholder ([0], [0]) for
   * fewer than two points, else the x and y parts of NormalAt at every point.
   */
  function NormalComponents(sqrt: real -> real, px: seq<real>, py: seq<real>): (r: (seq<Option<real>>, seq<Option<real>>))
    requires |px| == |py|
    ensures |px| >= 1 ==> |r.0| == |px| == |r.1|
  {
    if |px| < 2 then ([Some(0.0)], [Some(0.0)])
    else
      var p := Points(px, py);
      (seq(|px|, j requires 0 <= j < |px| => XPart(NormalAt(sqrt, p, j))),
       seq(|px|, j requires 0 <= j < |px| => YPart(NormalAt(sqrt, p, j))))
  }

  /**
   * compute_normals: fewer than two points give the placeholder ([0], [0]);
   * otherwise one normal per point, from the pair of points PairStart/PairEnd name.
   */
  method ComputeNormals(sqrt: real -> real, px: seq<real>, py: seq<real>)
    returns (nx: seq<Option<real>>, ny: seq<Option<real>>)
    requires |px| == |py|
    ensures (nx, ny) == NormalComponents(sqrt, px, py)
    ensures |px| < 2 ==> nx == [Some(0.0)] && ny == [Some(0.0)]
    ensures |px| >= 2 ==> |nx| == |px| && |ny| == |px|
    ensures |px| >= 2 ==>
              forall j :: 0 <= j < |px| ==>
                nx[j] == XPart(NormalAt(sqrt, Points(px, py), j)) &&
                ny[j] == YPart(NormalAt(sqrt, Points(px, py), j))
  {
    var p := Points(px, py);
    if |p| < 2 {
      return [Some(0.0)], [Some(0.0)];
    }
    var ns := FillByPairs((a, b) => Normal(sqrt, a, b), p, Some(Vec(0.0, 0.0)));
    assert forall j :: 0 <= j < |p| ==> ns[j] == NormalAt(sqrt, p, j);
    nx := seq(|ns|, j requires 0 <= j < |ns| => XPart(ns[j]));
    ny := seq(|ns|, j requires 0 <= j < |ns| => YPart(ns[j]));
    assert nx == NormalComponents(sqrt, px, py).0;
    assert ny == NormalComponents(sqrt, px, py).1;
  }

  /**
   * compute_tangentials: fewer than two points give the placeholder ([0], [0]);
   * otherwise one tangential per point, from the pair of points PairStart/PairEnd name.
   */
  method ComputeTangentials(sqrt: real -> real, px: seq<real>, py: seq<real>)
    returns (tx: seq<real>, ty: seq<real>)
    requires |px| == |py|
    ensures |px| < 2 ==> tx == [0.0] && ty == [0.0]
    ensures |px| >= 2 ==> |tx| == |px| && |ty| == |px|
    ensures |px| >= 2 ==>
              forall j :: 0 <= j < |px| ==>
                Vec(tx[j], ty[j]) == TangentialAt(sqrt, Points(px, py), j)
  {
    var p := Points(px, py);
    if |p| < 2 {
      return [0.0], [0.0];
    }
    var ts := FillByPairs((a, b) => Tangential(sqrt, a, b), p, Vec(0.0, 0.0));
    tx := seq(|ts|, j requires 0 <= j < |ts| => ts[j].x);
    ty := seq(|ts|, j requires 0 <= j < |ts| => ts[j].y);
  }

  /**
   * Along a straight polyline whose points advance in one direction d,
   * every point gets the same normal.
   */
  lemma {:induction false} StraightLineNormalsAgree(sqrt: real -> real, p: seq<Vec>, base: Vec, d: Vec, t: seq<real>)
    requires IsSqrt(sqrt) && 2 <= |p| && |t| == |p|
    requires forall i :: 0 <= i < |p| ==> p[i] == Vec(base.x + t[i] * d.x, base.y + t[i] * d.y)
    requires forall i, j :: 0 <= i < j < |t| ==> t[i] < t[j]
    ensures forall j :: 0 <= j < |p| ==> NormalAt(sqrt, p, j) == Normal(sqrt, base, Vec(base.x + d.x, base.y + d.y))
  {
    forall j | 0 <= j < |p|
      ensures NormalAt(sqrt, p, j) == Normal(sqrt, base, Vec(base.x + d.x, base.y + d.y))
    {
      var lo, hi := PairStart(|p|, j), PairEnd(|p|, j);
      var k := t[hi] - t[lo];
      assert k > 0.0;
      assert Sub(p[hi], p[lo]) == Scale(k, Sub(Vec(base.x + d.x, base.y + d.y), base));
      NormalScaleInvariant(sqrt, p[lo], p[hi], base, Vec(base.x + d.x, base.y + d.y), k);
    }
  }

  /** The Euclidean distance between two points, through the supplied root. */
  function Distance(sqrt: real -> real, p0: Vec, p1: Vec): real
  {
    sqrt(SquaredNorm(Sub(p1, p0)))
  }

  /** The distance is a non-negative root of the squared distance, zero exactly when the points coincide. */
  lemma DistanceRoot(sqrt: real -> real, p0: Vec, p1: Vec)
    requires IsSqrt(sqrt)
    ensures IsRootOf(Distance(sqrt, p0, p1), SquaredNorm(Sub(p1, p0)))
    ensures Distance(sqrt, p0, p1) == 0.0 <==> p0 == p1
  {
    DifferenceVanishes(p0, p1);
    SqrtPositive(sqrt, SquaredNorm(Sub(p1, p0)));
  }

  /**
   * The profile axis extract_profile builds: for every point, the straight-line
   * distance from the first point, sqrt((xs - xs[0])**2 + (ys - ys[0])**2).
   */
  function ProfileAxis(sqrt: real -> real, xs: seq<real>, ys: seq<real>): (axis: seq<real>)
    requires 0 < |xs| == |ys|
    ensures |axis| == |xs|
    ensures forall i {:trigger axis[i]} :: 0 <= i < |xs| ==> axis[i] == Distance(sqrt, Vec(xs[0], ys[0]), Vec(xs[i], ys[i]))
  {
    seq(|xs|, i requires 0 <= i < |xs| => Distance(sqrt, Vec(xs[0], ys[0]), Vec(xs[i], ys[i])))
  }

  /** The axis starts at 0. */
  lemma ProfileAxisStartsAtZero(sqrt: real -> real, xs: seq<real>, ys: seq<real>)
    requires IsSqrt(sqrt) && 0 < |xs| == |ys|
    ensures ProfileAxis(sqrt, xs, ys)[0] == 0.0
  {
    DistanceRoot(sqrt, Vec(xs[0], ys[0]), Vec(xs[0], ys[0]));
  }

  /** Entry i of the axis is the (non-negative) Euclidean distance from point 0 to point i. */
  lemma ProfileAxisIsDistanceFromFirstPoint(sqrt: real -> real, xs: seq<real>, ys: seq<real>, i: nat)
    requires IsSqrt(sqrt) && 0 < |xs| == |ys| && i < |xs|
    ensures IsRootOf(ProfileAxis(sqrt, xs, ys)[i], SquaredNorm(Sub(Vec(xs[i], ys[i]), Vec(xs[0], ys[0]))))
  {
    DistanceRoot(sqrt, Vec(xs[0], ys[0]), Vec(xs[i], ys[i]));
  }

  /** The profile axis is not monotone: walking back to the start brings it back to 0. */
  lemma ProfileAxisCanDecrease(sqrt: real -> real, xs: seq<real>, ys: seq<real>)
    requires IsSqrt(sqrt)
    requires |xs| == |ys| == 3
    requires xs[0] == 0.0 && xs[1] == 10.0 && xs[2] == 0.0
    requires ys[0] == 0.0 && ys[1] == 0.0 && ys[2] == 0.0
    ensures ProfileAxis(sqrt, xs, ys) == [0.0, 10.0, 0.0]
  {
    var axis := ProfileAxis(sqrt, xs, ys);
    assert axis[0] == 0.0 by { ProfileAxisStartsAtZero(sqrt, xs, ys); }
    assert axis[2] == 0.0 by { DistanceRoot(sqrt, Vec(xs[0], ys[0]), Vec(xs[2], ys[2])); }
    assert axis[1] == 10.0 by {
      ProfileAxisIsDistanceFromFirstPoint(sqrt, xs, ys, 1);
      LengthTen(axis[1], Sub(Vec(xs[1], ys[1]), Vec(xs[0], ys[0])));
    }
  }

  /** A root of the squared length of a vector of length 10 along an axis is 10. */
  lemma LengthTen(r: real, v: Vec)
    requires IsRootOf(r, SquaredNorm(v))
    requires (v.x == 10.0 && v.y == 0.0) || (v.x == 0.0 && v.y == 10.0)
    ensures r == 10.0
  {
    assert SquaredNorm(v) == 100.0;
    SqrtUnique(100.0, r, 10.0);
  }

  /** The length of segment (i - 1, i): sqrt(np.diff(px)**2 + np.diff(py)**2) at i - 1. */
  function SegmentLength(sqrt: real -> real, px: seq<real>, py: seq<real>, i: nat): real
    requires |px| == |py| && 0 < i < |px|
  {
    Distance(sqrt, Vec(px[i - 1], py[i - 1]), Vec(px[i], py[i]))
  }

  /** Distance along the path from point 0 to point i: the sum of the first i segment lengths. */
  function PathLength(sqrt: real -> real, px: seq<real>, py: seq<real>, i: nat): real
    requires |px| == |py| && i < |px|
  {
    if i == 0 then 0.0 else PathLength(sqrt, px, py, i - 1) + SegmentLength(sqrt, px, py, i)
  }

  /**
   * distance_from_start: zeros, segment lengths written into result[1:],
   * then the cumulative sum.
   */
  method DistanceFromStart(sqrt: real -> real, px: seq<real>, py: seq<real>) returns (r: seq<real>)
    requires |px| == |py|
    ensures |r| == |px|
    ensures forall i :: 0 <= i < |px| ==> r[i] == PathLength(sqrt, px, py, i)
  {
    var n := |px|;
    var result := new real[n](_ => 0.0);
    if n > 0 {
      for i := 1 to n
        invariant result[0] == 0.0
        invariant forall k {:trigger result[k]} :: 0 < k < i ==> result[k] == SegmentLength(sqrt, px, py, k)
      {
        result[i] := SegmentLength(sqrt, px, py, i);
      }
      for i := 1 to n
        invariant forall k {:trigger result[k]} :: 0 <= k < i ==> result[k] == PathLength(sqrt, px, py, k)
        invariant forall k {:trigger result[k]} :: i <= k < n ==> result[k] == SegmentLength(sqrt, px, py, k)
      {
        assert PathLength(sqrt, px, py, i) == result[i - 1] + result[i];
        result[i] := result[i - 1] + result[i];
      }
    }
    r := result[..];
  }

  /**
   * The distance from the start begins at 0, each step adds exactly the
   * length of the segment walked, and it never decreases.
   */
  lemma {:induction false} PathLengthIsNonDecreasing(sqrt: real -> real, px: seq<real>, py: seq<real>, i: nat, j: nat)
    requires IsSqrt(sqrt) && |px| == |py| && i <= j < |px|
    ensures PathLength(sqrt, px, py, 0) == 0.0
    ensures 0.0 <= PathLength(sqrt, px, py, i) <= PathLength(sqrt, px, py, j)
    decreases j
  {
    if i < j {
      PathLengthIsNonDecreasing(sqrt, px, py, i, j - 1);
      DistanceRoot(sqrt, Vec(px[j - 1], py[j - 1]), Vec(px[j], py[j]));
    } else if i > 0 {
      PathLengthIsNonDecreasing(sqrt, px, py, i - 1, i - 1);
      DistanceRoot(sqrt, Vec(px[i - 1], py[i - 1]), Vec(px[i], py[i]));
    }
  }

  /**
   * On the right-angle polyline (0,0) -> (10,0) -> (10,10) the distance from
   * the start is [0, 10, 20], but extract_profile's axis ends at sqrt(200),
   * the straight-line distance back to the first point.
   */
  lemma RightAngleAxisIsChordNotPath(sqrt: real -> real, xs: seq<real>, ys: seq<real>)
    requires IsSqrt(sqrt)
    requires |xs| == |ys| == 3
    requires xs[0] == 0.0 && xs[1] == 10.0 && xs[2] == 10.0
    requires ys[0] == 0.0 && ys[1] == 0.0 && ys[2] == 10.0
    ensures PathLength(sqrt, xs, ys, 2) == 20.0
    ensures ProfileAxis(sqrt, xs, ys)[1] == 10.0
    ensures IsRootOf(ProfileAxis(sqrt, xs, ys)[2], 200.0)
    ensures ProfileAxis(sqrt, xs, ys)[2] < 20.0
  {
    RightAnglePath(sqrt, xs, ys);
    RightAngleChord(sqrt, xs, ys);
  }

  /** Along (0,0) -> (10,0) -> (10,10) the distance from the start reaches 20. */
  lemma RightAnglePath(sqrt: real -> real, xs: seq<real>, ys: seq<real>)
    requires IsSqrt(sqrt)
    requires |xs| == |ys| == 3
    requires xs[0] == 0.0 && xs[1] == 10.0 && xs[2] == 10.0
    requires ys[0] == 0.0 && ys[1] == 0.0 && ys[2] == 10.0
    ensures PathLength(sqrt, xs, ys, 2) == 20.0
  {
    assert SegmentLength(sqrt, xs, ys, 1) == 10.0 by {
      DistanceRoot(sqrt, Vec(xs[0], ys[0]), Vec(xs[1], ys[1]));
      LengthTen(SegmentLength(sqrt, xs, ys, 1), Sub(Vec(xs[1], ys[1]), Vec(xs[0], ys[0])));
    }
    assert SegmentLength(sqrt, xs, ys, 2) == 10.0 by {
      DistanceRoot(sqrt, Vec(xs[1], ys[1]), Vec(xs[2], ys[2]));
      LengthTen(SegmentLength(sqrt, xs, ys, 2), Sub(Vec(xs[2], ys[2]), Vec(xs[1], ys[1])));
    }
    assert PathLength(sqrt, xs, ys, 1) == 10.0;
  }

  /** On the same polyline the axis is 10 at the corner and sqrt(200) < 20 at the end. */
  lemma RightAngleChord(sqrt: real -> real, xs: seq<real>, ys: seq<real>)
    requires IsSqrt(sqrt)
    requires |xs| == |ys| == 3
    requires xs[0] == 0.0 && xs[1] == 10.0 && xs[2] == 10.0
    requires ys[0] == 0.0 && ys[1] == 0.0 && ys[2] == 10.0
    ensures ProfileAxis(sqrt, xs, ys)[1] == 10.0
    ensures IsRootOf(ProfileAxis(sqrt, xs, ys)[2], 200.0)
    ensures ProfileAxis(sqrt, xs, ys)[2] < 20.0
  {
    var axis := ProfileAxis(sqrt, xs, ys);
    assert axis[1] == 10.0 by {
      ProfileAxisIsDistanceFromFirstPoint(sqrt, xs, ys, 1);
      LengthTen(axis[1], Sub(Vec(xs[1], ys[1]), Vec(xs[0], ys[0])));
    }
    assert IsRootOf(axis[2], 200.0) by {
      ProfileAxisIsDistanceFromFirstPoint(sqrt, xs, ys, 2);
      DiagonalSquared(Sub(Vec(xs[2], ys[2]), Vec(xs[0], ys[0])));
    }
    RootBelow(axis[2], 200.0, 20.0);
  }

  /** A root of a number below b*b is below b. */
  lemma RootBelow(r: real, x: real, b: real)
    requires IsRootOf(r, x) && b >= 0.0 && x < b * b
    ensures r < b
  {
    if r > b {
      SquareStrictlyIncreasing(b, r);
    }
  }

  lemma DiagonalSquared(v: Vec)
    requires v.x == 10.0 && v.y == 10.0
    ensures SquaredNorm(v) == 200.0
  {
  }
}
