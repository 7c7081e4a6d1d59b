/** Option and Result, the two failure-carrying datatypes the model uses. */
module Wrappers {

  /** A possibly missing value; `None` stands for a missing (NaN) cell. */
  datatype Option<+T> = None | Some(value: T) {

    /** The wrapped value, or `default` when it is missing. */
    function GetOr(default: T): T {
      match this
      case Some(v) => v
      case None => default
    }
  }

  /** The outcome of a step that can fail with an error of type `E`. */
  datatype Result<+T, +E> = Success(value: T) | Failure(error: E)
}
