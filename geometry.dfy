/** Engine value types shared by the scripts: Unity's Vector2 and Vector3 with
    exact real components, and the absolute value used on them. */
module Geometry {

  /** A Vector2 (velocities, impulses). */
  datatype Vec2 = Vec2(x: real, y: real)

  /** A Vector3 (positions, local scale). */
  datatype Vec3 = Vec3(x: real, y: real, z: real)

  const Zero2: Vec2 := Vec2(0.0, 0.0)

  /** Mathf.Abs / Math.Abs on a float. */
  function Abs(r: real): (a: real)
    ensures a >= 0.0
    ensures a == r || a == -r
  {
    if r < 0.0 then -r else r
  }
}
