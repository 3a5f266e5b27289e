/**
 * Vector arithmetic on exact reals, standing in for Unity's single-precision
 * Vector3/Vector4. Only the operations the hull splitter and the cap
 * triangulator use are defined; square roots (and so Normalize, Magnitude
 * and Acos) have no real counterpart here and are rephrased where they are
 * used.
 */
module Geometry {

  datatype Vec3 = Vec3(x: real, y: real, z: real)

  /** A tangent: a direction plus the handedness sign `w`. */
  datatype Vec4 = Vec4(x: real, y: real, z: real, w: real)

  const Zero: Vec3 := Vec3(0.0, 0.0, 0.0)
  const Up: Vec3 := Vec3(0.0, 1.0, 0.0)

  /** An oriented plane: a point on it and its normal. */
  datatype Plane = Plane(point: Vec3, normal: Vec3)

  function Add(a: Vec3, b: Vec3): Vec3 {
    Vec3(a.x + b.x, a.y + b.y, a.z + b.z)
  }

  function Sub(a: Vec3, b: Vec3): Vec3 {
    Vec3(a.x - b.x, a.y - b.y, a.z - b.z)
  }

  function Scale(a: Vec3, s: real): Vec3 {
    Vec3(a.x * s, a.y * s, a.z * s)
  }

  function Dot(a: Vec3, b: Vec3): real {
    a.x * b.x + a.y * b.y + a.z * b.z
  }

  function Cross(a: Vec3, b: Vec3): Vec3 {
    Vec3(a.y * b.z - a.z * b.y, a.z * b.x - a.x * b.z, a.x * b.y - a.y * b.x)
  }

  function SqrMagnitude(a: Vec3): real {
    Dot(a, a)
  }

  /** Mathf.Clamp01: values below 0 become 0, values above 1 become 1. */
  function Clamp01(v: real): (r: real)
    ensures 0.0 <= r <= 1.0
    ensures 0.0 <= v <= 1.0 ==> r == v
  {
    if v < 0.0 then 0.0 else if v > 1.0 then 1.0 else v
  }

  /** The component-wise blend `a + (b - a) * t` used for cut-vertex attributes. */
  function Lerp(a: Vec3, b: Vec3, t: real): Vec3 {
    Add(a, Scale(Sub(b, a), t))
  }

  /**
   * The signed height of `p` over `plane`, scaled by the normal's length:
   * `Dot(p - plane.point, plane.normal)`.
   */
  function Height(p: Vec3, plane: Plane): real {
    Dot(Sub(p, plane.point), plane.normal)
  }

  /** The side test of the splitter: points on the plane count as above. */
  predicate IsAbove(p: Vec3, plane: Plane) {
    Height(p, plane) >= 0.0
  }

  /**
   * The direction of a segment projected on a normal is the difference of
   * its endpoints' heights; this is why a segment whose endpoints lie on
   * different sides has a non-zero denominator in the intersection formula.
   */
  lemma DirectionHeight(p0: Vec3, p1: Vec3, plane: Plane)
    ensures Dot(Sub(p1, p0), plane.normal) == Height(p1, plane) - Height(p0, plane)
    ensures Dot(Sub(plane.point, p0), plane.normal) == -Height(p0, plane)
  {
  }

  /** Where a segment `p0 + (p1 - p0) * s` crosses `plane`, clamped to the segment. */
  function CrossingScalar(p0: Vec3, p1: Vec3, plane: Plane): (s: real)
    requires IsAbove(p0, plane) != IsAbove(p1, plane)
    ensures 0.0 <= s <= 1.0
    ensures Height(p0, plane) + s * (Height(p1, plane) - Height(p0, plane)) == 0.0
  {
    DirectionHeight(p0, p1, plane);
    var denominator := Dot(Sub(p1, p0), plane.normal);
    var s := Dot(Sub(plane.point, p0), plane.normal) / denominator;
    assert s * denominator == -Height(p0, plane);
    CrossingInSegment(Height(p0, plane), Height(p1, plane), s);
    Clamp01(s)
  }

  /** Heights vary linearly along a segment. */
  lemma HeightAlong(p0: Vec3, p1: Vec3, s: real, plane: Plane)
    ensures Height(Add(p0, Scale(Sub(p1, p0), s)), plane) == Height(p0, plane) + s * (Height(p1, plane) - Height(p0, plane))
  {
  }

  /**
   * A cut tangent: the direction blended like a normal, the handedness sign
   * copied from the first tangent.
   */
  function TangentBlend(t0: Vec4, t1: Vec4, s: real): (r: Vec4)
    ensures r.w == t0.w
    ensures s == 0.0 ==> r == t0
  {
    Vec4(t0.x + (t1.x - t0.x) * s, t0.y + (t1.y - t0.y) * s, t0.z + (t1.z - t0.z) * s, t0.w)
  }

  /** For heights of opposite sign the crossing parameter lies in [0, 1]. */
  lemma CrossingInSegment(h0: real, h1: real, s: real)
    requires (h0 >= 0.0) != (h1 >= 0.0)
    requires s * (h1 - h0) == -h0
    ensures 0.0 <= s <= 1.0
  {
    if h0 >= 0.0 {
      assert h1 - h0 < 0.0;
    } else {
      assert h1 - h0 > 0.0;
    }
  }
}
