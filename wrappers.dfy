/** Optional values (a JavaScript field that may be absent) and the outcome
    of an operation that may throw. */
module Wrappers {

  datatype Option<+T> = None | Some(value: T) {

    /** The value if present, otherwise `default` (JavaScript's `x || default`
        on an object-valued `x`). */
    function GetOr(default: T): T {
      match this
      case Some(v) => v
      case None => default
    }
  }

  /** `Failure` stands for a thrown `Error` carrying its message. */
  datatype Result<+R, +E> = Success(value: R) | Failure(error: E)
}
