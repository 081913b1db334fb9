/**
 * Value types shared by every part of the render server model: the
 * vector structs of the rendering engine, one GET parameter, and the C
 * library conversions the server calls but whose code is not part of it.
 */
module Common {

  datatype Option<+T> = None | Some(value: T)

  /** An `unsigned char` of the image buffers. */
  newtype byte = x: int | 0 <= x < 256

  /** The engine's `float3`; float rounding is not modelled, so a real. */
  datatype Float3 = Float3(x: real, y: real, z: real)

  /** The engine's `float4`. */
  datatype Float4 = Float4(x: real, y: real, z: real, w: real)

  /** One GET parameter, in the order the HTTP library delivers them. */
  datatype Param = Param(name: string, value: string)

  /**
   * `atoi` and `atof` from the C library. Their parsing rules (leading
   * blanks, sign, silent 0 on garbage) belong to the C library, so the
   * model takes them as given functions.
   */
  datatype Libc = Libc(atoi: string -> int, atof: string -> real)
}
