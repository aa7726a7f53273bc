/**
 * The part of GLM's `vec3` arithmetic that the camera controller uses,
 * over mathematical reals instead of single-precision floats.
 */
module Glm {

  datatype Vec3 = Vec3(x: real, y: real, z: real)

  const Zero: Vec3 := Vec3(0.0, 0.0, 0.0)

  function Add(u: Vec3, v: Vec3): Vec3 {
    Vec3(u.x + v.x, u.y + v.y, u.z + v.z)
  }

  function Sub(u: Vec3, v: Vec3): Vec3 {
    Vec3(u.x - v.x, u.y - v.y, u.z - v.z)
  }

  function Neg(v: Vec3): Vec3 {
    Vec3(-v.x, -v.y, -v.z)
  }

  /** Scalar multiple `k * v` (GLM accepts the scalar on either side). */
  function Scale(k: real, v: Vec3): Vec3 {
    Vec3(k * v.x, k * v.y, k * v.z)
  }

  function Dot(u: Vec3, v: Vec3): real {
    u.x * v.x + u.y * v.y + u.z * v.z
  }

  /** `glm::cross`, the right-handed cross product: perpendicular to both arguments. */
  function Cross(u: Vec3, v: Vec3): (r: Vec3)
    ensures Dot(r, u) == 0.0 && Dot(r, v) == 0.0
  {
    Vec3(u.y * v.z - u.z * v.y, u.z * v.x - u.x * v.z, u.x * v.y - u.y * v.x)
  }

  /** `k` is the reciprocal of the Euclidean length of a non-zero `v`. */
  predicate IsInverseLength(k: real, v: Vec3) {
    0.0 < k && k * k * Dot(v, v) == 1.0
  }

  /**
   * `glm::normalize`, which divides `v` by its length. Reals have no square
   * root, so the caller supplies the reciprocal length `k`; the zero vector,
   * for which GLM divides by zero, has none. The result has unit length and
   * points the same way as `v`.
   */
  function Normalize(v: Vec3, k: real): (n: Vec3)
    requires IsInverseLength(k, v)
    ensures Dot(n, n) == 1.0 && Cross(n, v) == Zero && Dot(n, v) > 0.0
  {
    ScaledByInverseLength(v, k);
    Scale(k, v)
  }

  lemma DotOfNeg(v: Vec3)
    ensures Dot(Neg(v), Neg(v)) == Dot(v, v)
  {
  }

  lemma DotOfScale(k: real, v: Vec3)
    ensures Dot(Scale(k, v), Scale(k, v)) == k * k * Dot(v, v)
  {
    calc {
      Dot(Scale(k, v), Scale(k, v));
      (k * v.x) * (k * v.x) + (k * v.y) * (k * v.y) + (k * v.z) * (k * v.z);
      k * k * (v.x * v.x) + k * k * (v.y * v.y) + k * k * (v.z * v.z);
      k * k * Dot(v, v);
    }
  }

  /** Scaling a vector by its reciprocal length gives a unit vector along it. */
  lemma ScaledByInverseLength(v: Vec3, k: real)
    requires IsInverseLength(k, v)
    ensures var n := Scale(k, v);
      Dot(n, n) == 1.0 && Cross(n, v) == Zero && Dot(n, v) > 0.0
  {
    var n := Scale(k, v);
    DotOfScale(k, v);
    assert Dot(n, v) == k * Dot(v, v);
    assert Dot(v, v) > 0.0 by {
      assert Dot(v, v) >= 0.0;
      assert Dot(v, v) != 0.0;
    }
  }
}
