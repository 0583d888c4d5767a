/** Real-valued stand-ins for the value types the finger-joint generator
    borrows from its CAD library: a point, a free vector and a directed line
    segment. Coordinates are exact reals; rounding is not modelled. */
module Geometry {

  /** A location in space. */
  datatype Point = Point(x: real, y: real, z: real)

  /** A free vector: a displacement, not a location. */
  datatype Vec = Vec(x: real, y: real, z: real)

  /** A directed straight segment from `from` to `to`. */
  datatype Seg = Seg(from: Point, to: Point)

  /** The world Z axis, the reference axis of the perpendicular offset. */
  const ZAxis: Vec := Vec(0.0, 0.0, 1.0)

  /** The displacement that carries `a` onto `b`. */
  function Between(a: Point, b: Point): Vec {
    Vec(b.x - a.x, b.y - a.y, b.z - a.z)
  }

  /** `p` moved by `v`. */
  function Add(p: Point, v: Vec): Point {
    Point(p.x + v.x, p.y + v.y, p.z + v.z)
  }

  function Neg(v: Vec): Vec {
    Vec(-v.x, -v.y, -v.z)
  }

  function Scale(k: real, v: Vec): Vec {
    Vec(k * v.x, k * v.y, k * v.z)
  }

  function Dot(a: Vec, b: Vec): real {
    a.x * b.x + a.y * b.y + a.z * b.z
  }

  function Cross(a: Vec, b: Vec): Vec {
    Vec(a.y * b.z - a.z * b.y, a.z * b.x - a.x * b.z, a.x * b.y - a.y * b.x)
  }

  /** The displacement from a segment's start to its end. */
  function Direction(s: Seg): Vec {
    Between(s.from, s.to)
  }

  /** The point at parameter `t` of the segment's line, by linear
      interpolation; `t` is not clamped, so values outside [0, 1]
      extrapolate. */
  function PointAt(s: Seg, t: real): Point {
    Add(s.from, Scale(t, Direction(s)))
  }

  /** The segment moved rigidly by `v`. */
  function Translate(s: Seg, v: Vec): Seg {
    Seg(Add(s.from, v), Add(s.to, v))
  }

  /** `len` is the Euclidean length of `s`. */
  ghost predicate IsLengthOf(s: Seg, len: real) {
    0.0 <= len && len * len == Dot(Direction(s), Direction(s))
  }

  /** Translation moves both ends by the same vector and keeps the
      segment's direction. */
  lemma TranslateRigid(s: Seg, v: Vec)
    ensures Between(s.from, Translate(s, v).from) == v
    ensures Between(s.to, Translate(s, v).to) == v
    ensures Direction(Translate(s, v)) == Direction(s)
  {
  }

  /** Interpolation hits the segment's two ends at parameters 0 and 1. */
  lemma PointAtEnds(s: Seg)
    ensures PointAt(s, 0.0) == s.from
    ensures PointAt(s, 1.0) == s.to
  {
  }

  /** The chord between two interpolated points is the segment's direction
      scaled by the difference of their parameters. */
  lemma PointAtChord(s: Seg, a: real, b: real)
    ensures Between(PointAt(s, a), PointAt(s, b)) == Scale(b - a, Direction(s))
  {
    var d := Direction(s);
    assert b * d.x - a * d.x == (b - a) * d.x;
    assert b * d.y - a * d.y == (b - a) * d.y;
    assert b * d.z - a * d.z == (b - a) * d.z;
  }

  /** Scaling pulls out of a dot product. */
  lemma DotScale(k: real, v: Vec, w: Vec)
    ensures Dot(Scale(k, v), w) == k * Dot(v, w)
  {
    assert (k * v.x) * w.x == k * (v.x * w.x);
    assert (k * v.y) * w.y == k * (v.y * w.y);
    assert (k * v.z) * w.z == k * (v.z * w.z);
  }

  /** Scaling both factors of a squared norm scales it by the square. */
  lemma SquaredNormScale(k: real, v: Vec)
    ensures Dot(Scale(k, v), Scale(k, v)) == k * k * Dot(v, v)
  {
    assert (k * v.x) * (k * v.x) == k * k * (v.x * v.x);
    assert (k * v.y) * (k * v.y) == k * k * (v.y * v.y);
    assert (k * v.z) * (k * v.z) == k * k * (v.z * v.z);
  }

  /** A cross product is orthogonal to its first factor. */
  lemma CrossOrthogonal(a: Vec, b: Vec)
    ensures Dot(Cross(a, b), a) == 0.0
  {
  }
}
