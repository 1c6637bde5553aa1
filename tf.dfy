/**
 * What LaserOdometryBase needs from the tf library.  Transforms are opaque:
 * the class is generic in their type T, and the handful of tf operations the
 * base class calls are supplied as a TfLibrary value, so that the identity,
 * the inverse and the trigonometric conversions stay uninterpreted.
 */
module Tf {

  datatype Vector3 = Vector3(x: real, y: real, z: real)

  datatype Quaternion = Quaternion(x: real, y: real, z: real, w: real)

  datatype TfLibrary<!T> = TfLibrary(
    /** tf::Transform::getIdentity() */
    identity: T,
    /** tf::Transform::inverse() */
    inverse: T -> T,
    /** getOrigin().getX() and getOrigin().getY() */
    originX: T -> real,
    originY: T -> real,
    /** getRotation(), converted to a message by quaternionTFToMsg */
    rotation: T -> Quaternion,
    /** tf::getYaw */
    yaw: Quaternion -> real,
    /** tf::createQuaternionMsgFromYaw */
    quaternionFromYaw: real -> Quaternion)

  /** The one law of tf the base class relies on: the identity is its own inverse. */
  predicate IdentitySelfInverse<T(==)>(tf: TfLibrary<T>) {
    tf.inverse(tf.identity) == tf.identity
  }
}
