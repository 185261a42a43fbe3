/** Optional values and call outcomes, used throughout the model. */
module Wrappers {

  /** An optional value: a Gradle `Property` that may be absent, a nullable file. */
  datatype Option<+T> = None | Some(value: T) {
    function GetOr(default: T): T {
      match this
      case Some(v) => v
      case None => default
    }
  }

  /** The outcome of a Java call that either returns a value or throws. */
  datatype Result<+R, +E> = Success(value: R) | Failure(error: E)
}
