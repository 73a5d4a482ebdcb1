/** Small value types shared by the contour-morphology and room's-eye-view models. */
module Common {

  /** A value that may be absent; stands for a nullable pointer or string of the host. */
  datatype Option<+T> = None | Some(value: T)

  /** Three real components: an origin, a voxel spacing or a physical kernel size. */
  datatype Vec3 = Vec3(x: real, y: real, z: real)

  /** The three axes of a voxel grid. */
  datatype Axis = X | Y | Z

  /** The component of `v` along `axis`. */
  function Component(v: Vec3, axis: Axis): real
  {
    match axis
    case X => v.x
    case Y => v.y
    case Z => v.z
  }
}
