/** Small value types shared by every module of the model. */
module Types {

  /** An optional value; `:-` propagates `None`. */
  datatype Option<+T> = None | Some(value: T) {
    predicate IsFailure() { None? }

    function PropagateFailure<U>(): Option<U>
      requires None?
    {
      None
    }

    function Extract(): T
      requires Some?
    {
      value
    }
  }

  /** Rust's `u32`: the type of every Open Opus identifier (`ID` in lib.rs). */
  newtype u32 = x: int | 0 <= x < 0x1_0000_0000

  /** Rust's `u64`: the row count of a successful status. */
  newtype u64 = x: int | 0 <= x < 0x1_0000_0000_0000_0000
}
