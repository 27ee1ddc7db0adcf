/** Plain values shared by the player controller and the game loop: 3-D
    vectors over the reals, screen points, and the fixed start positions. */
module Geometry {

  /** A position or displacement in world space (Siv3D's Vec3). */
  datatype Vec3 = Vec3(x: real, y: real, z: real)

  /** A position on the screen in pixels (Siv3D's Point). */
  datatype Point = Point(x: int, y: int)

  /** Where the player's eye starts, and where every reset puts it. */
  const PlayerStart: Vec3 := Vec3(100.0, 2.0, -16.0)

  /** Where the spider starts, and where every reset puts it. */
  const SpiderStart: Vec3 := Vec3(0.0, -0.62, 10.0)

  function Add(a: Vec3, b: Vec3): Vec3
  {
    Vec3(a.x + b.x, a.y + b.y, a.z + b.z)
  }

  function Sub(a: Point, b: Point): Point
  {
    Point(a.x - b.x, a.y - b.y)
  }
}
