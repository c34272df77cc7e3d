/** Failure-compatible value wrappers used throughout the model: Rust's `Option` and
    `Result`, TypeScript's `T | null`/`undefined`, and a unit-valued outcome for
    validators that return `Result<(), String>`. */
module Wrappers {

  datatype Option<+T> = None | Some(value: T) {
    function GetOr(default: T): T {
      match this
      case Some(v) => v
      case None => default
    }
  }

  datatype Result<+T, +E> = Ok(value: T) | Err(error: E) {
    function ToOption(): Option<T> {
      match this
      case Ok(v) => Some(v)
      case Err(_) => None
    }
  }

  /** `Result<(), E>`: either passes or fails with an error value. */
  datatype Outcome<+E> = Pass | Fail(error: E)
}
