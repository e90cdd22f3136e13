/** Failure-compatible datatypes shared by every module of the model.
    A C# method that throws is modelled as a function or method that
    returns `Failure(e)`; a C# reference that may be null as an `Option`. */
module Wrappers {

  datatype Option<+T> = None | Some(value: T)

  datatype Result<+T, +E> = Success(value: T) | Failure(error: E)

  /** The exception classes the modelled code throws. */
  datatype ModelError =
    | ArgumentNull
    | ArgumentOutOfRange
    | Argument
    | InvalidOperation
}
