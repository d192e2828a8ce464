/** Types shared by the machine layer and the CPU core it drives. */
module Rv {

  /** Result of a bus access or a UART I/O callback: RV_OK or RV_BAD. */
  datatype Res = Ok | Bad

  datatype Option<T> = None | Some(value: T)

  /** An unsigned 32-bit value (rv_u32). */
  type u32 = x: int | 0 <= x < 0x1_0000_0000

  /** One byte of memory or of a bus transfer (rv_u8). */
  type byte = x: int | 0 <= x < 0x100

  function Min(a: int, b: int): (m: int)
    ensures m <= a && m <= b && (m == a || m == b)
  {
    if a <= b then a else b
  }
}
