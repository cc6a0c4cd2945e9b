/** Values shared by every part of the model. */
module Base {

  datatype Option<+T> = None | Some(value: T)

  /** A lanelet id, the source's int64_t. */
  type Id = int

  const INVALID_ID: Id := 0

  datatype Gps = Gps(latitude: real, longitude: real)

  datatype Local = Local(x: real, y: real, z: real)

  /** Only the z and w parts of the quaternion vary; x and y are always zero. */
  datatype Orientation = Orientation(z: real, w: real, yawDegrees: real)

  /** Position and heading as they are published. */
  datatype Pose = Pose(x: real, y: real, z: real, qz: real, qw: real)

  function PoseAt(local: Local, orientation: Orientation): Pose {
    Pose(local.x, local.y, local.z, orientation.z, orientation.w)
  }
}
