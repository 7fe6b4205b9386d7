/** Option and Result, for values the source may lack (null, undefined) and for
    operations that fail (database integrity errors, rejected network calls). */
module Wrappers {

  datatype Option<+T> = None | Some(value: T) {
    function GetOr(default: T): T {
      match this
      case Some(v) => v
      case None => default
    }
  }

  datatype Result<+R, +E> = Success(value: R) | Failure(error: E)
}
