/** Failure-carrying values shared by all the puzzle modules. */
module Wrappers {

  /** An optional value, as Rust's `Option`. */
  datatype Option<+T> = None | Some(value: T) {
    /** The value, or `default` when there is none (Rust's `unwrap_or`). */
    function GetOr(default: T): T {
      match this
      case Some(v) => v
      case None => default
    }
  }

  /** A success value or an error, as Rust's `Result`. */
  datatype Result<+T, +E> = Ok(value: T) | Err(error: E)

  /**
   * The three ways a parse that can panic ends: a value, an ordinary
   * failure (a parser error the caller can return), or a panic with its
   * message (an `unwrap` on an error).
   */
  datatype Outcome<+T> = Success(value: T) | Failure | Panic(message: string)
}
