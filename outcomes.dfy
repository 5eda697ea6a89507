/** Failure-carrying datatypes shared by every module of the renderer model. */
module Outcomes {

  /** Rust's `Option<T>`. */
  datatype Option<+T> = None | Some(value: T) {

    /** Rust's `unwrap_or`: the held value, or `default` when there is none. */
    function GetOr(default: T): T
    {
      match this
      case Some(v) => v
      case None => default
    }
  }

  /** Rust's `Result<T, E>`; the crate's `GameResult<T>` is `Result<T, GameError>`. */
  datatype Result<+T, +E> = Ok(value: T) | Err(error: E)
}
