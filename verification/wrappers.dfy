/** Option and Result, the two failure-carrying wrappers used throughout the model:
    `Option` for JavaScript's `undefined`/`null`-or-value, `Result` for a value or a thrown error. */
module Wrappers {

  datatype Option<+T> = None | Some(value: T) {
    function GetOr(default: T): T {
      match this
      case Some(v) => v
      case None => default
    }
  }

  datatype Result<+R, +E> = Ok(value: R) | Err(error: E)
}
