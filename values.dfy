/** Plain values shared by the projectile model: optional references and
    three-component vectors (Bullet's btVector3 and PLIB's sgVec3, with
    floats taken as reals). */
module Values {

  /** A nullable reference: `None` stands for NULL. */
  datatype Option<T> = None | Some(value: T)

  datatype Vec3 = Vec3(x: real, y: real, z: real)

  const Origin: Vec3 := Vec3(0.0, 0.0, 0.0)

  /** Component-wise difference `a - b`. */
  function Sub(a: Vec3, b: Vec3): Vec3 {
    Vec3(a.x - b.x, a.y - b.y, a.z - b.z)
  }

  /** Squared length, as btVector3::length2. */
  function Length2(v: Vec3): real {
    v.x * v.x + v.y * v.y + v.z * v.z
  }
}
