/**
 * Value types shared by the configuration store and the sensor specification.
 * Floating-point numbers are kept opaque: only their identity matters to the
 * modelled code, which stores, compares and forwards them but never computes
 * with them.
 */
module Geometry {
  /** A 32-bit float, represented by its bit pattern. */
  datatype Float32 = Float32(bits: bv32)

  /** A 64-bit float, represented by its bit pattern. */
  datatype Float64 = Float64(bits: bv64)

  /** A 3-component float vector (positions, Euler angles). */
  datatype Vec3 = Vec3(x: Float32, y: Float32, z: Float32)

  /** A quaternion: a vector part and a scalar part. */
  datatype Quat = Quat(vector: Vec3, scalar: Float32)

  /** A 2-component integer vector (image resolution). */
  datatype Vec2i = Vec2i(x: int, y: int)
}
