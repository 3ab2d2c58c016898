/** Option and Result values used across the model. */
module Wrappers {

  /** An optional value: `None` stands for JavaScript's `undefined`, `null` or `NaN`
      wherever a module says so. */
  datatype Option<+T> = None | Some(value: T) {
    function GetOr(default: T): T {
      match this
      case Some(v) => v
      case None => default
    }
  }

  /** The outcome of an operation that may throw: `Failure` carries the error message. */
  datatype Result<+R> = Success(value: R) | Failure(error: string)
}
