/** Failure-aware values shared by the modules of this model. */
module Wrappers {

  /** Go's "optional" idioms: a value that parsed (Some) or did not (None). */
  datatype Option<+T> = None | Some(value: T)

  /** A Go `error` value, identified by the text its `Error()` method returns. */
  datatype Error = Error(message: string)

  /** A Go `(value, error)` pair where exactly one side is meaningful. */
  datatype Result<+T> = Success(value: T) | Failure(error: Error)
}
