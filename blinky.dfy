/** The capability interface between host and guest (the `wasi:blinky/blinky`
    import): two LED calls and a blocking delay whose argument is an unsigned
    32-bit number of milliseconds. A guest's observable behaviour is the
    sequence of these calls it issues. */
module Blinky {

  /** Rust's `u32`, the type of `delay`'s argument. */
  newtype uint32 = x: int | 0 <= x < 0x1_0000_0000

  /** One host call issued by the guest. */
  datatype Event = On | Off | Delay(ms: uint32)
}
