/**
 * Vectors over the reals in place of the engine's float vectors.
 * Lengths are compared through squared magnitudes, and a vector is
 * normalised with its inverse length supplied by the caller, so no
 * square root appears anywhere in the model.
 */
module Geometry {

  datatype Vec2 = Vec2(x: real, y: real)
  datatype Vec3 = Vec3(x: real, y: real, z: real)

  function Add(a: Vec3, b: Vec3): Vec3 { Vec3(a.x + b.x, a.y + b.y, a.z + b.z) }
  function Sub(a: Vec3, b: Vec3): Vec3 { Vec3(a.x - b.x, a.y - b.y, a.z - b.z) }
  function Scale(k: real, a: Vec3): Vec3 { Vec3(k * a.x, k * a.y, k * a.z) }
  function Dot(a: Vec3, b: Vec3): real { a.x * b.x + a.y * b.y + a.z * b.z }
  function SqrMagnitude(a: Vec3): real { Dot(a, a) }
  function SqrDistance(a: Vec3, b: Vec3): real { SqrMagnitude(Sub(a, b)) }

  function Add2(a: Vec2, b: Vec2): Vec2 { Vec2(a.x + b.x, a.y + b.y) }
  function Sub2(a: Vec2, b: Vec2): Vec2 { Vec2(a.x - b.x, a.y - b.y) }
  function Scale2(k: real, a: Vec2): Vec2 { Vec2(k * a.x, k * a.y) }
  function SqrMagnitude2(a: Vec2): real { a.x * a.x + a.y * a.y }

  /** The planar vector (x, y) laid on the ground plane as (x, 0, y). */
  function Ground(v: Vec2): Vec3 { Vec3(v.x, 0.0, v.y) }

  /** The ground-plane (x, z) part of a position, as a planar vector. */
  function Planar(p: Vec3): Vec2 { Vec2(p.x, p.z) }

  /** `Vector3.Distance(a, b) <= range`, written without the square root. */
  predicate WithinRange(a: Vec3, b: Vec3, range: real) {
    0.0 <= range && SqrDistance(a, b) <= range * range
  }

  lemma ProductOfPositives(x: real, y: real)
    requires 0.0 < x && 0.0 < y
    ensures 0.0 < x * y
  {
  }

  /** Squaring is strictly increasing on the non-negative reals. */
  lemma SquareStrictlyIncreasing(p: real, q: real)
    requires 0.0 <= p < q
    ensures p * p < q * q
  {
    ProductOfPositives(q - p, q + p);
  }

  /** WithinRange agrees with comparing the true distance `d` against `range`. */
  lemma WithinRangeIsDistanceBound(a: Vec3, b: Vec3, d: real, range: real)
    requires 0.0 <= d && d * d == SqrDistance(a, b)
    ensures d <= range <==> WithinRange(a, b, range)
  {
    if d < range {
      SquareStrictlyIncreasing(d, range);
    } else if 0.0 <= range < d {
      SquareStrictlyIncreasing(range, d);
    }
  }

  /** `k` is 1 / |v|: the factor that `.normalized` multiplies `v` by. */
  predicate IsInverseLength(v: Vec3, k: real) {
    0.0 < k && k * k * SqrMagnitude(v) == 1.0
  }

  /** `v.normalized` for a vector of non-zero length, whose inverse length is `k`. */
  function Normalized(v: Vec3, k: real): Vec3
    requires IsInverseLength(v, k)
  {
    Scale(k, v)
  }

  /**
   * A normalised vector has unit length and points the same way as the
   * original: positive dot product, with equality in Cauchy-Schwarz.
   */
  lemma NormalizedIsUnitAlong(v: Vec3, k: real)
    requires IsInverseLength(v, k)
    ensures var u := Normalized(v, k);
      && SqrMagnitude(u) == 1.0
      && Dot(u, v) > 0.0 && Dot(u, v) * Dot(u, v) == SqrMagnitude(v)
  {
    var u := Normalized(v, k);
    assert SqrMagnitude(u) == k * k * SqrMagnitude(v);
    assert Dot(u, v) == k * SqrMagnitude(v);
    assert SqrMagnitude(v) > 0.0;
    assert Dot(u, v) * Dot(u, v) == (k * k * SqrMagnitude(v)) * SqrMagnitude(v);
  }
}
