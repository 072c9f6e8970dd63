/** Absent-or-present values and success-or-failure results, used for the
    source's optional fields, its `null` returns and its thrown errors. */
module Wrappers {

  datatype Option<+T> = None | Some(value: T) {
    function GetOr(default: T): T {
      match this
      case Some(v) => v
      case None => default
    }
  }

  /** A service call either returns a value or throws an Error carrying a message. */
  datatype Result<+T> = Success(value: T) | Failure(error: string)
}
