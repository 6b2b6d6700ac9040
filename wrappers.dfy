/** Option and Result, standing in for Java's nullable references and thrown exceptions. */
module Wrappers {

  /** `None` plays the role of a Java `null` reference. */
  datatype Option<+T> = None | Some(value: T) {

    /** The value, or `default` when there is none. */
    function GetOr(default: T): T {
      match this
      case Some(v) => v
      case None => default
    }
  }

  /** `Failure` plays the role of an exception thrown instead of returning. */
  datatype Result<+R, +E> = Success(value: R) | Failure(error: E)
}
