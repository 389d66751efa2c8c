/** Option and Result, the two failure-carrying shapes used across the model. */
module Wrappers {

  /** A value that may be missing (Rust `Option`, a TypeScript optional/nullable). */
  datatype Option<+T> = None | Some(value: T) {

    /** The carried value, or `default` when there is none. */
    function GetOr(default: T): T {
      match this
      case Some(v) => v
      case None => default
    }
  }

  /** Rust's `Result<T, String>`: a value or an error message. */
  datatype Result<+T> = Success(value: T) | Failure(error: string)
}
