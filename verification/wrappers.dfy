/** Option and Result, the two failure-aware datatypes the model uses in place of
    C#'s nullable references and thrown exceptions. */
module Wrappers {

  /** A value that may be absent: `None` plays the part of a C# `null`. */
  datatype Option<+T> = None | Some(value: T) {

    /** The wrapped value, or `default` when absent: C#'s `x ?? default`. */
    function GetOr(default: T): T {
      match this
      case Some(v) => v
      case None => default
    }
  }

  /** Either a value or the error an operation raised. */
  datatype Result<+R, +E> = Success(value: R) | Failure(error: E)
}
