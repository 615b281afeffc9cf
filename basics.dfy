/** Option and Result, used for Python's `None` defaults and raised errors. */
module Basics {

  datatype Option<+T> = None | Some(value: T) {
    /** `x or default` for a value whose only falsy form is `None`. */
    function GetOr(default: T): T {
      match this
      case Some(v) => v
      case None => default
    }
  }

  datatype Result<+R, +E> = Success(value: R) | Failure(error: E)
}
