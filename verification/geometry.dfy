/** Planar points over the reals and the rotation used by the camera.
    Coordinates are exact reals: floating-point rounding is not modelled. */
module Geometry {

  /** A point (or an offset) in graph space or in viewport space. */
  datatype Point = Point(x: real, y: real)

  /** Pixel extent of the viewport. */
  datatype Dimensions = Dimensions(width: real, height: real)

  /** The cosine and sine of a camera angle. The host computes them with
      Math.cos and Math.sin; here they are handed in as a pair. */
  datatype Trig = Trig(cos: real, sin: real)

  /** The pair of an angle of 0. */
  const Unrotated := Trig(1.0, 0.0)

  /** The pair of an angle of pi/2. */
  const QuarterTurn := Trig(0.0, 1.0)

  /** The pair lies on the unit circle, as every (cos a, sin a) does. */
  predicate IsUnit(t: Trig) {
    t.cos * t.cos + t.sin * t.sin == 1.0
  }

  /** What is known of the host's trigonometry: `t` is a point of the unit
      circle, and the angle 0 has the pair (1, 0). */
  predicate TrigOf(angle: real, t: Trig) {
    IsUnit(t) && (angle == 0.0 ==> t == Unrotated)
  }

  function Add(a: Point, b: Point): Point {
    Point(a.x + b.x, a.y + b.y)
  }

  function Sub(a: Point, b: Point): Point {
    Point(a.x - b.x, a.y - b.y)
  }

  /** Squared Euclidean length. */
  function Norm2(v: Point): real {
    v.x * v.x + v.y * v.y
  }

  function Min(a: real, b: real): (m: real)
    ensures m <= a && m <= b
    ensures m == a || m == b
  {
    if a <= b then a else b
  }

  /** The pixel at the middle of the viewport. */
  function Centre(d: Dimensions): Point {
    Point(d.width / 2.0, d.height / 2.0)
  }

  /** Planar rotation of `v` by the angle whose cosine and sine are `t`. */
  function Rotate(t: Trig, v: Point): (r: Point)
    ensures t == Unrotated ==> r == v
    ensures v == Point(0.0, 0.0) ==> r == v
  {
    Point(v.x * t.cos - v.y * t.sin, v.x * t.sin + v.y * t.cos)
  }

  /** Planar rotation of `v` by the opposite angle: cos(-a) = cos a and
      sin(-a) = -sin a. */
  function Unrotate(t: Trig, v: Point): (r: Point)
    ensures t == Unrotated ==> r == v
    ensures v == Point(0.0, 0.0) ==> r == v
  {
    Point(v.x * t.cos + v.y * t.sin, -(v.x * t.sin) + v.y * t.cos)
  }

  /** Rotating by an angle and then by its opposite is the identity. */
  lemma UnrotateRotate(t: Trig, v: Point)
    requires IsUnit(t)
    ensures Unrotate(t, Rotate(t, v)) == v
  {
  }

  /** Rotating by the opposite angle and then by the angle is the identity. */
  lemma RotateUnrotate(t: Trig, v: Point)
    requires IsUnit(t)
    ensures Rotate(t, Unrotate(t, v)) == v
  {
  }

  /** A rotation preserves lengths. */
  lemma RotatePreservesNorm(t: Trig, v: Point)
    requires IsUnit(t)
    ensures Norm2(Rotate(t, v)) == Norm2(v)
  {
  }

  /** A rotation is linear: it commutes with taking differences. */
  lemma RotateSub(t: Trig, a: Point, b: Point)
    ensures Sub(Rotate(t, a), Rotate(t, b)) == Rotate(t, Sub(a, b))
  {
  }
}
