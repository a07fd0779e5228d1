/**
 * Value types shared by every part of the renderer model: optional values
 * (a C string pointer that may be null, a lookup that may miss), the small
 * glm vectors the renderer passes around, and transforms kept symbolic as the
 * list of glm operations that produced them.
 */
module Common {

  datatype Option<T> = None | Some(value: T) {
    function GetOr(default: T): T {
      match this
      case Some(v) => v
      case None => default
    }
  }

  /** A `const char*` path: `None` is `nullptr`. */
  type CStr = Option<string>

  datatype Vec2 = Vec2(x: real, y: real)

  datatype Vec3 = Vec3(x: real, y: real, z: real) {
    function Plus(o: Vec3): Vec3 {
      Vec3(x + o.x, y + o.y, z + o.z)
    }

    function Times(k: real): Vec3 {
      Vec3(k * x, k * y, k * z)
    }
  }

  /**
   * One glm matrix operation. A `Transform` is the product of its operations
   * taken left to right, so `glm::rotate(m, a, axis)` (which computes
   * m * R) appends `Rotate(a, axis)` to `m`, and the empty list is the identity.
   */
  datatype TransformOp =
    | Scale(factor: real)
    | Translate(offset: Vec3)
    | Rotate(degrees: int, axis: Vec3)
    | Perspective(fovDegrees: real, aspect: real, near: real, far: real)
    | LookAt(eye: Vec3, target: Vec3, up: Vec3)

  type Transform = seq<TransformOp>
}
