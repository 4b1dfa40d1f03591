/** Small shared vocabulary: an optional value and the unsigned-integer helpers
    (`min`, `saturating_sub`) that the Rust code uses on `usize` and `u16`. */
module Common {

  datatype Option<T> = None | Some(value: T)

  function Min(a: nat, b: nat): nat
  {
    if a <= b then a else b
  }

  /** Rust's `a.saturating_sub(b)` on unsigned integers: never below zero. */
  function SatSub(a: nat, b: nat): nat
  {
    if a >= b then a - b else 0
  }
}
