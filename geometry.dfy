/** Vectors, rays and the engine services the ground-height code consumes.
    Floats are modelled as `real`; the engine's transform, normalisation and
    distance calls are opaque functions handed in by the caller. */
module Geometry {

  datatype Option<T> = None | Some(value: T)

  /** A 3D point or direction (Unity's Vector3). */
  datatype Vec3 = Vec3(x: real, y: real, z: real)

  const Zero: Vec3 := Vec3(0.0, 0.0, 0.0)

  /** Vector3.down */
  const Down: Vec3 := Vec3(0.0, -1.0, 0.0)

  function Add(a: Vec3, b: Vec3): Vec3 {
    Vec3(a.x + b.x, a.y + b.y, a.z + b.z)
  }

  function Sub(a: Vec3, b: Vec3): Vec3 {
    Vec3(a.x - b.x, a.y - b.y, a.z - b.z)
  }

  function Scale(a: Vec3, s: real): Vec3 {
    Vec3(a.x * s, a.y * s, a.z * s)
  }

  function Dot(a: Vec3, b: Vec3): real {
    a.x * b.x + a.y * b.y + a.z * b.z
  }

  function Cross(a: Vec3, b: Vec3): Vec3 {
    Vec3(a.y * b.z - a.z * b.y, a.z * b.x - a.x * b.z, a.x * b.y - a.y * b.x)
  }

  datatype Ray = Ray(origin: Vec3, direction: Vec3)

  /** A scene Transform, seen only through the four maps the code calls:
      local-to-world and world-to-local, for points and for directions. */
  datatype Transform = Transform(
    transformPoint: Vec3 -> Vec3,
    inverseTransformPoint: Vec3 -> Vec3,
    transformDirection: Vec3 -> Vec3,
    inverseTransformDirection: Vec3 -> Vec3)

  /** Vector3.Normalize (also `.normalized`) and Vector3.Distance, which take square
      roots and are left uninterpreted. */
  datatype VectorOps = VectorOps(normalize: Vec3 -> Vec3, distance: (Vec3, Vec3) -> real)
}
