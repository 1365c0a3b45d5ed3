/** Values shared by the terrain post-processing step: coordinates that may be
    not-a-number, points, normal vectors and the error/result wrappers. */
module Geometry {

  /** An IEEE-754 coordinate as far as the terrain step observes it: either a
      real number or NaN, which is incomparable (every ordering test on it is
      false). */
  datatype Float = NaN | Num(v: real)

  /** `a < b` on a possibly-NaN left operand: false when `a` is NaN. */
  predicate Lt(a: Float, b: real) {
    a.Num? && a.v < b
  }

  /** `a > b` on a possibly-NaN left operand: false when `a` is NaN. */
  predicate Gt(a: Float, b: real) {
    a.Num? && a.v > b
  }

  /** A vertex position. Only the x coordinate is allowed to be NaN (the
      sampling artifact the importer is known to produce). */
  datatype Point = Point(x: Float, y: real, z: real)

  /** A face normal (or any direction) in three dimensions. */
  datatype Vec3 = Vec3(x: real, y: real, z: real)

  function Dot(a: Vec3, b: Vec3): real {
    a.x * b.x + a.y * b.y + a.z * b.z
  }

  datatype Result<+T, +E> = Success(value: T) | Failure(error: E)
}
