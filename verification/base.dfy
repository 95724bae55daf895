/**
 * Shared vocabulary of the engine model: bytes, 32-bit unsigned wrap-around,
 * optional values, thrown exceptions and the plain vector records that the
 * engine only carries around.
 */
module Base {

  /** A byte of memory handed to the graphics driver. */
  type byte = x: int | 0 <= x < 256

  /** 2^32: `UINT`, `unsigned int` and `DWORD` are 32 bits wide on the engine's platform. */
  const U32_MODULUS: nat := 0x1_0000_0000

  /** The value a C++ conversion to a 32-bit unsigned integer produces (wrap-around modulo 2^32). */
  function U32(x: int): (r: nat)
    ensures r < U32_MODULUS
    ensures 0 <= x < U32_MODULUS ==> r == x
    ensures (r - x) % U32_MODULUS == 0
  {
    x % U32_MODULUS
  }

  /** Converting before or after an addition gives the same 32-bit value. */
  lemma U32Add(a: int, b: int)
    ensures U32(U32(a) + b) == U32(a + b)
  {
    var q := a / U32_MODULUS;
    assert a == q * U32_MODULUS + U32(a);
    assert (U32(a) + b) - (a + b) == -q * U32_MODULUS;
    ModShift(a + b, -q);
  }

  lemma ModShift(x: int, q: int)
    ensures (x + q * U32_MODULUS) % U32_MODULUS == x % U32_MODULUS
  {
  }

  datatype Option<+T> = None | Some(value: T)

  /** The outcome of an operation that may throw `std::exception` with a message. */
  datatype Result<+T> = Ok(value: T) | Throw(message: string)

  /** The outcome of a `void` operation that may throw. */
  datatype Outcome = Done | Thrown(message: string)

  /** `Vector2D`: a texture coordinate. Only carried, never computed with. */
  datatype Vec2 = Vec2(x: real, y: real)

  /** `Vector3D` (three floats, 12 bytes): a position or a colour. Only carried, never computed with. */
  datatype Vec3 = Vec3(x: real, y: real, z: real)
}
