/** Optional values (Java's nullable references) and the outcome of an operation that may throw. */
module Wrappers {

  /** `None` stands for a Java `null`. */
  datatype Option<+T> = None | Some(value: T) {
    function GetOr(default: T): T {
      match this
      case Some(v) => v
      case None => default
    }
  }

  /** The outcome of a `void` Java method that may throw. */
  datatype Outcome<+E> = Pass | Fail(error: E)

  /** The outcome of a Java method that returns a value or throws. */
  datatype Result<+T, +E> = Success(value: T) | Failure(error: E)
}
