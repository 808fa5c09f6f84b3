/**
 * Points and orientations. The source uses the floating-point `Point3D`,
 * `Vector3D` and `Quaternion` of the platform; here every coordinate is a `real`,
 * so the arithmetic is exact.
 */
module Geometry {

  datatype Point3 = Point3(x: real, y: real, z: real)

  datatype Quaternion = Quaternion(w: real, x: real, y: real, z: real)

  const Origin: Point3 := Point3(0.0, 0.0, 0.0)

  const Identity: Quaternion := Quaternion(1.0, 0.0, 0.0, 0.0)

  function Abs(r: real): (a: real)
    ensures a >= 0.0 && (a == r || a == -r)
  {
    if r < 0.0 then -r else r
  }

  /**
   * The square of the Euclidean distance between `p` and `q`. The length
   * itself is its square root, which is monotone, so comparing squares orders
   * points exactly as comparing lengths does.
   */
  function SquaredDistance(p: Point3, q: Point3): (d: real)
    ensures d >= 0.0
  {
    var dx, dy, dz := p.x - q.x, p.y - q.y, p.z - q.z;
    SquareNonNegative(dx);
    SquareNonNegative(dy);
    SquareNonNegative(dz);
    dx * dx + dy * dy + dz * dz
  }

  lemma SquareNonNegative(a: real)
    ensures a * a >= 0.0
  {
    if a < 0.0 { assert a * a == (-a) * (-a); }
  }
}
