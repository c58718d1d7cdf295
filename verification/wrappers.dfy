/** Optional values (a JavaScript `undefined`/missing property) and the
    outcome of a submit handler that may abort before any request. */
module Wrappers {

  datatype Option<+T> = None | Some(value: T) {
    /** `x || d` for a possibly missing `x`. */
    function GetOr(default: T): T {
      match this
      case Some(v) => v
      case None => default
    }
  }

  datatype Result<+T, +E> = Success(value: T) | Failure(error: E)
}
