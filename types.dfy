/** Machine integer widths used by the emulator, and the failure-compatible
    result type that replaces the panics of the original program. */
module Types {

  /** Rust's `u8`, `u16` and `u32`. Arithmetic on them is written out
      explicitly wherever it could leave the range. */
  type u8 = x: int | 0 <= x < 0x100
  type u16 = x: int | 0 <= x < 0x1_0000
  type u32 = x: int | 0 <= x < 0x1_0000_0000

  /** Either a value or the reason an operation stopped. */
  datatype Result<+T, +E> = Ok(value: T) | Err(error: E) {

    predicate IsFailure() {
      Err?
    }

    function PropagateFailure<U>(): Result<U, E>
      requires Err?
    {
      Err(error)
    }

    function Extract(): T
      requires Ok?
    {
      value
    }
  }
}
