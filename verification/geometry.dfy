/** Positions as the source's `{x, y, z}` records and THREE.Vector3 values,
    over exact reals. */
module Geometry {

  datatype Vec3 = Vec3(x: real, y: real, z: real)

  const Origin := Vec3(0.0, 0.0, 0.0)

  function Add(a: Vec3, b: Vec3): Vec3 {
    Vec3(a.x + b.x, a.y + b.y, a.z + b.z)
  }

  /** The same point moved vertically by `dy`. */
  function Raised(p: Vec3, dy: real): (r: Vec3)
    ensures r.x == p.x && r.z == p.z && r.y - p.y == dy
  {
    p.(y := p.y + dy)
  }

  /** Squared Euclidean distance (`distanceTo` squared). */
  function DistSq(a: Vec3, b: Vec3): (d: real)
    ensures d >= 0.0
  {
    var dx, dy, dz := a.x - b.x, a.y - b.y, a.z - b.z;
    dx * dx + dy * dy + dz * dz
  }

  /** Linear interpolation `a.lerp(b, t)`. */
  function Lerp(a: Vec3, b: Vec3, t: real): Vec3 {
    Vec3(a.x + (b.x - a.x) * t, a.y + (b.y - a.y) * t, a.z + (b.z - a.z) * t)
  }

  function Abs(r: real): (a: real)
    ensures a >= 0.0 && (a == r || a == -r)
  {
    if r < 0.0 then -r else r
  }
}
