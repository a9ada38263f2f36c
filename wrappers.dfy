/** Option and Result in Rust's own spelling, shared by every module of the model. */
module Wrappers {

  datatype Option<+T> = None | Some(value: T) {
    function UnwrapOr(default: T): T {
      match this
      case Some(v) => v
      case None => default
    }
  }

  datatype Result<+T, +E> = Ok(value: T) | Err(error: E) {
    function ToOption(): Option<T> {
      match this
      case Ok(v) => Some(v)
      case Err(_) => None
    }
  }

  /** The unit value `()` returned by operations that only succeed or fail. */
  datatype Unit = Unit

  /** How a Rust call ends: with a value, or with a panic (`unwrap`, `expect`, a slice out of range). */
  datatype Outcome<+T> = Returned(value: T) | Panicked(message: string)
}
