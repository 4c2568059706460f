/** Optional values and results with an error, used where the Python code has
    `None` or raises an exception. */
module Wrappers {

  /** `None` plays the part of Python's `None`. */
  datatype Option<+T> = None | Some(value: T) {

    /** The wrapped value, or `default` when there is none. */
    function GetOr(default: T): T {
      match this
      case Some(v) => v
      case None => default
    }
  }

  /** The outcome of an operation that may raise: `Failure` carries the
      exception the Python code would propagate. */
  datatype Result<+T, +E> = Success(value: T) | Failure(error: E)
}
