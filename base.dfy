/** Failure-compatible wrappers used throughout the model. */
module Wrappers {

  datatype Option<+T> = None | Some(value: T)

  /** The outcome of a Python call: a value, or the exception it raised. */
  datatype Result<+R, +E> = Success(value: R) | Failure(error: E) {
    predicate IsFailure() { Failure? }

    function PropagateFailure<U>(): Result<U, E>
      requires Failure?
    {
      Failure(error)
    }

    function Extract(): R
      requires Success?
    {
      value
    }
  }
}

/** The Python exceptions the modelled code raises, with the text `str(e)` gives. */
module Exceptions {

  datatype Kind =
    | KeyError
    | IndexError
    | TypeError
    | AttributeError
    | ValueError
    | ValidationError
    | FileNotFoundError
    | UnboundLocalError  // a subclass of `NameError`
    | RemoteError

  datatype Error = Error(kind: Kind, message: string)

  /** `str(IndexError)` for an out-of-range list or string index. */
  const ListIndexOutOfRange := "list index out of range"
  const StringIndexOutOfRange := "string index out of range"

  /** pandas' `to_dict(orient='index')` on a frame whose index repeats a value. */
  const DuplicateIndex := Error(ValueError, "DataFrame index must be unique for orient='index'.")
}
