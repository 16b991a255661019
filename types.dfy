/** Machine-level value types shared by the STM32G4 clock-tree model. */
module ClockTypes {

  /** An unsigned 32-bit integer, the width of the source's `u32`. */
  type U32 = x: nat | x < 0x1_0000_0000

  /** A frequency in Hz; the source's `Hertz` wraps a `u32`. */
  type Hertz = U32

  /** An unsigned 8-bit register-field code, the source's `u8`. */
  type Byte = x: nat | x < 0x100

  /** The panics of the clock initialisation, one kind per distinct message. */
  datatype Error =
    | InvalidPllr                // the R divisor is not 2, 4, 6 or 8
    | InvalidPllq                // the Q divisor is not 2, 4, 6 or 8
    | VcoInputTooHigh            // VCO input above 16 MHz
    | VcoInputTooLow             // VCO input below 2.66 MHz
    | VcoOutputTooHigh           // VCO output above 344 MHz
    | VcoOutputTooLow            // VCO output below 96 MHz
    | VcoOutputNot48MHzMultiple  // the Q tap cannot be made exactly 48 MHz
    | LowPowerRunTooFast         // low-power run requested above 2 MHz

  datatype Result<T> = Ok(value: T) | Err(error: Error)

  datatype Option<T> = None | Some(value: T)

  /** `1 << n`. */
  function Pow2(n: nat): (p: nat)
    ensures p >= 1
  {
    if n == 0 then 1 else 2 * Pow2(n - 1)
  }
}
