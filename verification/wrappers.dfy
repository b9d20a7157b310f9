/** Failure-compatible wrappers shared by every module of the model.
    `Option` stands for a Python value that may be `None`; `Result` stands
    for a call that either returns a value or raises (the error carries the
    text `str(e)` of the exception). */
module Wrappers {

  datatype Option<+T> = None | Some(value: T) {

    /** The value, or `default` when absent (Python's `x or default` only
        for non-falsy values; see `Truthy` in AzureConfig for strings). */
    function GetOr(default: T): T {
      match this
      case Some(v) => v
      case None => default
    }
  }

  datatype Result<+R, +E> = Success(value: R) | Failure(error: E) {

    predicate IsFailure() {
      Failure?
    }

    function PropagateFailure<U>(): Result<U, E>
      requires Failure?
    {
      Failure(error)
    }

    function Extract(): R
      requires Success?
    {
      value
    }
  }
}
