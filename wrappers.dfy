/** Optional values (JavaScript's `null`/`undefined` next to a present value) and results
    that may instead be a thrown error. */
module Wrappers {

  datatype Option<+T> = None | Some(value: T) {

    /** The present value, or `default` when there is none. */
    function GetOr(default: T): T {
      match this
      case Some(v) => v
      case None => default
    }
  }

  /** A value, or the message of the error thrown instead. */
  datatype Result<+T> = Success(value: T) | Failure(error: string)
}
