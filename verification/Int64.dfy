/** Signed 64-bit integers with the saturating operations the stores use for instants and delays. */
module Int64 {
  const MIN: int := -0x8000_0000_0000_0000
  const MAX: int := 0x7fff_ffff_ffff_ffff

  type I64 = x: int | MIN <= x <= MAX witness 0

  function Clamp(x: int): I64 {
    if x < MIN then MIN else if x > MAX then MAX else x
  }

  function SatAdd(a: I64, b: I64): I64 {
    Clamp(a + b)
  }

  function SatMul(a: I64, b: I64): I64 {
    Clamp(a * b)
  }
}
