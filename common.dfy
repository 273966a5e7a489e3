/** Value types shared by the plant-controller model: the C integer widths the
    firmware uses, the conversions between them, and an Option type. */
module Common {

  datatype Option<+T> = None | Some(value: T)

  const U16_MODULUS: int := 0x1_0000
  const LONG_MIN: int := -0x8000_0000
  const LONG_MAX: int := 0x7FFF_FFFF

  /** uint8_t */
  type u8 = x: int | 0 <= x < 0x100
  /** uint16_t */
  type u16 = x: int | 0 <= x < 0x1_0000
  /** int32_t (also `long`, which is 32 bits wide on the ESP32) */
  type i32 = x: int | LONG_MIN <= x <= LONG_MAX

  /** The C conversion of an integer to uint16_t: the unique value in
      0..65535 congruent to x modulo 2^16. */
  function ToU16(x: int): (r: u16)
    ensures (r - x) % U16_MODULUS == 0
    ensures 0 <= x < U16_MODULUS ==> r == x
  {
    x % U16_MODULUS
  }
}
