/** Option and Result, the two failure-carrying shapes the model uses for
    TypeScript's `T | undefined | null` values and for thrown exceptions. */
module Wrappers {

  /** An optional value; `None` stands for both `undefined` and `null`. */
  datatype Option<+T> = None | Some(value: T) {

    /** Returns the wrapped value, or `default` when there is none. */
    function GetOr(default: T): T {
      match this
      case Some(v) => v
      case None => default
    }
  }

  /** The outcome of an operation that either returns a value or throws. */
  datatype Result<+R, +E> = Success(value: R) | Failure(error: E)
}
