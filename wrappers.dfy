/** Optional values, the exceptions the repository raises, and results that carry either. */
module Wrappers {

  /** A Python value that may be `None`. */
  datatype Option<+T> = None | Some(value: T) {

    function GetOr(default: T): T {
      match this
      case Some(v) => v
      case None => default
    }
  }

  /** The exception classes the modelled code raises, with their messages. */
  datatype Error =
    | ValueError(message: string)
    | IndexError(message: string)
    | AttributeError(message: string)
    | ParsedResultError(message: string)

  /** The outcome of a Python call: its value, or the exception it raised. */
  datatype Result<+T> = Ok(value: T) | Err(error: Error) {

    predicate IsFailure() {
      Err?
    }

    function PropagateFailure<U>(): Result<U>
      requires Err?
    {
      Err(error)
    }

    function Extract(): T
      requires Ok?
    {
      value
    }
  }
}
