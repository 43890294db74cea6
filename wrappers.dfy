/** Optional values and results shared by the other modules. */
module Wrappers {

  /** A value that may be absent: a JavaScript `null`, `undefined` or missing element. */
  datatype Option<+T> = None | Some(value: T) {

    /** The value, or `default` when it is absent. */
    function GetOr(default: T): T {
      match this
      case Some(v) => v
      case None => default
    }
  }

  /** Either a computed value or the reason it could not be computed. */
  datatype Result<+R, +E> = Success(value: R) | Failure(error: E)
}
