/** The homogeneous vectors the viewer stores positions and directions in. */
module Geometry {
  datatype Vec3 = Vec3(x: real, y: real, z: real)

  datatype Vec4 = Vec4(x: real, y: real, z: real, w: real)

  /** Component-wise difference, as vec4's operator-. */
  function Minus(a: Vec4, b: Vec4): Vec4
  {
    Vec4(a.x - b.x, a.y - b.y, a.z - b.z, a.w - b.w)
  }

  function Sq(a: real): real
  {
    a * a
  }
}
