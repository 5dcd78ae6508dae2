/** Option and Result values used for the source's `None` and raised validation errors. */
module Wrappers {

  datatype Option<+T> = None | Some(value: T) {
    function GetOr(default: T): T {
      match this
      case Some(v) => v
      case None => default
    }
  }

  datatype Result<+R, +E> = Ok(value: R) | Err(error: E)

  /** A validator that returns nothing or raises `ValidationError`. */
  datatype Outcome<+E> = Pass | Fail(error: E)
}
