/** Shared value types: the optional and fallible results the Rust code
    uses (`Option<T>`, `Result<T, E>`) and the `u32` width of its
    numeric attributes. */
module Common {

  /** Rust's `Option<T>`. */
  datatype Option<+T> = None | Some(value: T) {

    /** `unwrap_or(default)`: the held value, or `default` when absent. */
    function UnwrapOr(default: T): T
    {
      match this
      case Some(v) => v
      case None => default
    }
  }

  /** Rust's `Result<T, E>`. */
  datatype Result<+T, +E> = Ok(value: T) | Err(error: E)

  /** The values of a Rust `u32`. */
  type U32 = x: int | 0 <= x < 0x1_0000_0000
}
