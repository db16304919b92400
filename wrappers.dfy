/** Option, Result and Outcome: the failure-compatible wrappers the model uses
    for Python's None values and raised exceptions. */
module Wrappers {

  datatype Option<+T> = None | Some(value: T) {
    function GetOr(default: T): T {
      match this
      case Some(v) => v
      case None => default
    }
  }

  datatype Result<+T, +E> = Success(value: T) | Failure(error: E) {
    predicate IsFailure() {
      Failure?
    }

    function PropagateFailure<U>(): Result<U, E>
      requires Failure?
    {
      Failure(error)
    }

    function Extract(): T
      requires Success?
    {
      value
    }
  }

  /** A computation that either returns normally or raises. */
  datatype Outcome<+E> = Pass | Fail(error: E)
}

/** The exceptions the modelled code can raise. */
module Errors {

  datatype Error =
    | KeyError(key: string)            // `df[col]` on a column the table does not have
    | NotNumeric(column: string)       // a numeric operation over a column with a text or missing cell
    | ConversionError(text: string)    // `float(text)` on text that is not a decimal number
    | HttpError(status: int)           // `raise_for_status` on a 4xx or 5xx reply
    | ConfigError(message: string)     // the ValueError raised by `validate_config`
}
