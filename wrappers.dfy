/** Option, Result and Outcome: a JSON key that may be absent, and an operation that may raise. */
module Wrappers {

  datatype Option<+T> = None | Some(value: T) {
    /** The value, or `default` when absent: Python's `d.get(key, default)`. */
    function GetOr(default: T): T {
      match this
      case Some(v) => v
      case None => default
    }
  }

  datatype Result<+R, +E> = Success(value: R) | Failure(error: E)

  /** Whether a method that returns nothing ran to its end or raised with a
      message. */
  datatype Outcome = Done | Raised(message: string)
}
