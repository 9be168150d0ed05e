/** Option and failure carriers shared by the handlers. */
module Wrappers {

  /** A value that may be absent: a missing JSON field or a failed lookup. */
  datatype Option<+T> = None | Some(value: T) {

    /** The value, or `default` when absent (the `x || default` idiom on non-falsy values). */
    function GetOr(default: T): T {
      match this
      case Some(v) => v
      case None => default
    }
  }

  /** A handler outcome that carries a value on success. */
  datatype Result<+T, +E> = Success(value: T) | Failure(error: E)

  /** A handler outcome with no value on success. */
  datatype Outcome<+E> = Pass | Fail(error: E)
}
