/** Option and Result, standing for Rust's `Option<T>` and `Result<T, E>`. */
module Wrappers {
  datatype Option<+T> = None | Some(value: T)

  datatype Result<+T, +E> = Ok(value: T) | Err(error: E)
}

/** Two- and three-component vectors of the game engine (`Vec2`, `Vec3`), over exact reals. */
module Vectors {
  datatype Vec2 = Vec2(x: real, y: real)

  datatype Vec3 = Vec3(x: real, y: real, z: real)

  /** `Vec2::Y`, the unit vector pointing up. */
  const Up: Vec2 := Vec2(0.0, 1.0)

  function Neg(v: Vec2): Vec2 { Vec2(-v.x, -v.y) }

  function Dot(a: Vec2, b: Vec2): real { a.x * b.x + a.y * b.y }
}
