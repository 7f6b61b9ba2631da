/** Vectors, colours and the floating-point operations the mesh code calls
    but whose values are not modelled (trigonometry, normalisation, matrix
    products). Those operations are collected in a Kernel value that every
    generator receives as a parameter, so each one stays an opaque but fixed
    function. */
module Geometry {

  datatype Vec3 = Vec3(x: real, y: real, z: real)

  datatype Vec2 = Vec2(u: real, v: real)

  /** An 8-bit RGBA colour. */
  datatype Color = Color(r: nat, g: nat, b: nat, a: nat)

  const White: Color := Color(255, 255, 255, 255)

  const Origin: Vec3 := Vec3(0.0, 0.0, 0.0)

  const Unit: Vec3 := Vec3(1.0, 1.0, 1.0)

  function Add(a: Vec3, b: Vec3): Vec3
  {
    Vec3(a.x + b.x, a.y + b.y, a.z + b.z)
  }

  /** `v *= size` on a vector. */
  function Scale(v: Vec3, k: real): Vec3
  {
    Vec3(v.x * k, v.y * k, v.z * k)
  }

  /** `a / (float)b` where the code only divides by a positive count. */
  function Ratio(a: nat, b: nat): real
  {
    if b == 0 then 0.0 else a as real / b as real
  }

  /** The floating-point operations the generators use, left uninterpreted.
      - sine: `sin`, used to place polyline points.
      - circlePoint(radius, resolution, i): point i of the circle fan.
      - tubeOffset(line, radius, segments, i, j): the radial offset of segment
        j of ring i for the Z-up tube frame (antenna and leg).
      - straightOffset(line, radius, radialSegments, i, j): the same for the
        Y-up frame of the straight tentacle.
      - normalize: `normalized()`.
      - legVertex(j, v), legNormal(j, n): copy j of the leg multiplied by its
        rotation matrix, and by that matrix's rotation part.
      - mineralsVertex(scale, angle, offset, v): v times translate*rotate*scale.
      - mineralsNormal(angle, n): n times the rotation about Z. */
  datatype Kernel = Kernel(
    sine: real -> real,
    circlePoint: (real, int, nat) -> Vec3,
    tubeOffset: (seq<Vec3>, real, nat, nat, nat) -> Vec3,
    straightOffset: (seq<Vec3>, real, nat, nat, nat) -> Vec3,
    normalize: Vec3 -> Vec3,
    legVertex: (nat, Vec3) -> Vec3,
    legNormal: (nat, Vec3) -> Vec3,
    mineralsVertex: (real, real, Vec3, Vec3) -> Vec3,
    mineralsNormal: (real, Vec3) -> Vec3
  )
}
