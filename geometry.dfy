/**
 * Vectors as real triples (the THREE.Vector3 operations the game rules use) and
 * the host's floating-point math library (Math.sqrt, Math.sin, Math.cos, Math.PI)
 * as function values constrained by `Valid`.
 */
module Geometry {

  /** Math.min and Math.max. */
  function Min(a: real, b: real): real { if a <= b then a else b }

  function Max(a: real, b: real): real { if a >= b then a else b }

  /** THREE.MathUtils.clamp. */
  function Clamp(v: real, lo: real, hi: real): real { Max(lo, Min(hi, v)) }

  datatype Vec3 = Vec3(x: real, y: real, z: real)

  const Zero := Vec3(0.0, 0.0, 0.0)
  const Up := Vec3(0.0, 1.0, 0.0)

  function Add(a: Vec3, b: Vec3): Vec3 { Vec3(a.x + b.x, a.y + b.y, a.z + b.z) }

  function Sub(a: Vec3, b: Vec3): Vec3 { Vec3(a.x - b.x, a.y - b.y, a.z - b.z) }

  function Neg(v: Vec3): Vec3 { Vec3(-v.x, -v.y, -v.z) }

  function Scale(v: Vec3, k: real): Vec3 { Vec3(v.x * k, v.y * k, v.z * k) }

  function Cross(a: Vec3, b: Vec3): Vec3 {
    Vec3(a.y * b.z - a.z * b.y, a.z * b.x - a.x * b.z, a.x * b.y - a.y * b.x)
  }

  /** Vector3.lerp: moves `a` the fraction `t` of the way towards `b`. */
  function Lerp(a: Vec3, b: Vec3, t: real): Vec3 { Add(a, Scale(Sub(b, a), t)) }

  /** Squared Euclidean length. */
  function Norm2(v: Vec3): (r: real)
    ensures r >= 0.0
  {
    SquareNonNeg(v.x);
    SquareNonNeg(v.y);
    SquareNonNeg(v.z);
    v.x * v.x + v.y * v.y + v.z * v.z
  }

  lemma SquareNonNeg(a: real)
    ensures a * a >= 0.0
  {
  }

  lemma MulPos(a: real, b: real)
    requires a > 0.0 && b > 0.0
    ensures a * b > 0.0
  {
  }

  /** Squaring is strictly monotone on the non-negative reals. */
  lemma SquareMono(a: real, b: real)
    requires 0.0 <= a && 0.0 <= b
    ensures a <= b <==> a * a <= b * b
    ensures a < b <==> a * a < b * b
  {
    if a < b {
      SquareGrows(a, b);
    } else if b < a {
      SquareGrows(b, a);
    }
  }

  lemma SquareGrows(a: real, b: real)
    requires 0.0 <= a < b
    ensures a * a < b * b
  {
    var d := b - a;
    assert b * b == a * a + 2.0 * a * d + d * d;
    MulPos(d, d);
    assert a * d >= 0.0;
  }

  /** Squared distance between two points. */
  function Dist2(a: Vec3, b: Vec3): real { Norm2(Sub(a, b)) }

  lemma ScaleNorm2(v: Vec3, k: real)
    ensures Norm2(Scale(v, k)) == k * k * Norm2(v)
  {
    calc {
      Norm2(Scale(v, k));
      (v.x * k) * (v.x * k) + (v.y * k) * (v.y * k) + (v.z * k) * (v.z * k);
      k * k * (v.x * v.x + v.y * v.y + v.z * v.z);
    }
  }

  /** The host's math library. */
  datatype MathLib = MathLib(sqrt: real -> real, sin: real -> real, cos: real -> real, pi: real)

  /** What the model assumes of the host's math library. */
  ghost predicate Valid(m: MathLib) {
    && (forall u :: 0.0 <= u ==> 0.0 <= m.sqrt(u) && m.sqrt(u) * m.sqrt(u) == u)
    && (forall u :: 0.0 < u ==> 0.0 < m.sqrt(u))
    && m.sqrt(0.0) == 0.0
    && (forall t :: -1.0 <= m.sin(t) <= 1.0)
    && (forall t :: -1.0 <= m.cos(t) <= 1.0)
    && (forall t :: m.sin(t) * m.sin(t) + m.cos(t) * m.cos(t) == 1.0)
    && m.sin(0.0) == 0.0 && m.cos(0.0) == 1.0
    && 3.14 < m.pi < 3.15
  }

  lemma SinCos(m: MathLib, t: real)
    requires Valid(m)
    ensures m.sin(t) * m.sin(t) + m.cos(t) * m.cos(t) == 1.0
  {
  }

  /** Vector3.length. */
  function Length(m: MathLib, v: Vec3): real { m.sqrt(Norm2(v)) }

  /** Vector3.distanceTo. */
  function Distance(m: MathLib, a: Vec3, b: Vec3): real { Length(m, Sub(a, b)) }

  /** Vector3.normalize: divides by the length, or by 1 when the length is 0. */
  function Normalize(m: MathLib, v: Vec3): Vec3 {
    var len := Length(m, v);
    if len == 0.0 then v else Scale(v, 1.0 / len)
  }

  /** A length is zero exactly when the squared length is. */
  lemma LengthZero(m: MathLib, v: Vec3)
    requires Valid(m)
    ensures Length(m, v) >= 0.0
    ensures Length(m, v) == 0.0 <==> Norm2(v) == 0.0
  {
  }

  /** Comparing a length with a radius is comparing the squared length with the squared radius. */
  lemma LengthCompare(m: MathLib, v: Vec3, r: real)
    requires Valid(m) && r >= 0.0
    ensures Length(m, v) <= r <==> Norm2(v) <= r * r
    ensures Length(m, v) < r <==> Norm2(v) < r * r
  {
    SquareMono(Length(m, v), r);
  }

  /** The same, for distances between points. */
  lemma DistanceCompare(m: MathLib, a: Vec3, b: Vec3, r: real)
    requires Valid(m) && r >= 0.0
    ensures Distance(m, a, b) <= r <==> Dist2(a, b) <= r * r
    ensures Distance(m, a, b) < r <==> Dist2(a, b) < r * r
  {
    LengthCompare(m, Sub(a, b), r);
  }

  /** Normalizing a vector of non-zero length gives a unit vector on the same ray. */
  lemma NormalizeUnit(m: MathLib, v: Vec3)
    requires Valid(m) && Norm2(v) > 0.0
    ensures Length(m, v) > 0.0
    ensures Normalize(m, v) == Scale(v, 1.0 / Length(m, v))
    ensures Norm2(Normalize(m, v)) == 1.0
  {
    var len := Length(m, v);
    ScaleNorm2(v, 1.0 / len);
    assert (1.0 / len) * (1.0 / len) * (len * len) == 1.0;
  }

  /** Normalizing a vector of length zero leaves it unchanged. */
  lemma NormalizeZero(m: MathLib, v: Vec3)
    requires Valid(m) && Norm2(v) == 0.0
    ensures Normalize(m, v) == v
  {
  }

  /** A unit vector has length 1. */
  lemma UnitLength(m: MathLib, v: Vec3)
    requires Valid(m) && Norm2(v) == 1.0
    ensures Length(m, v) == 1.0
  {
    SquareMono(Length(m, v), 1.0);
  }
}
