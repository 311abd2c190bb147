/** Value types of the game engine shared by the coordinate conversions and the
    point-cloud builder. The engine stores 32-bit floats; the model uses reals,
    which is exact for the axis permutations and sign flips done here. */
module Geometry {

  /** UnityEngine.Vector3 */
  datatype Vector3 = Vector3(x: real, y: real, z: real)

  /** UnityEngine.Quaternion: imaginary part (x, y, z) and scalar part w */
  datatype Quaternion = Quaternion(x: real, y: real, z: real, w: real)

  /** The imaginary (axis) part of a quaternion, as a vector */
  function Imag(q: Quaternion): Vector3
  {
    Vector3(q.x, q.y, q.z)
  }

  newtype byte = n: int | 0 <= n < 256

  /** UnityEngine.Color32: four 8-bit channels */
  datatype Color32 = Color32(r: byte, g: byte, b: byte, a: byte)
}
