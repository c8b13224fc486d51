/** Failure-carrying results shared by every module of the model. */
module Wrappers {

  datatype Option<+T> = None | Some(value: T) {
    function GetOr(default: T): T {
      match this
      case Some(v) => v
      case None => default
    }
  }

  /** What a call can throw or reject with. */
  datatype Error =
    /** The library's own error type; its constructor keeps only the message. */
    | HoyoAPIError(message: string)
    /** A JavaScript runtime error, e.g. reading a property of `null`. */
    | TypeError(message: string)
    /** A rejection with a plain object `{ error }`, which is not an `Error` instance. */
    | PlainRejection(error: string)

  datatype Result<+T> = Ok(value: T) | Err(error: Error) {
    predicate IsFailure() { Err? }

    function PropagateFailure<U>(): Result<U>
      requires Err?
    {
      Err(error)
    }

    function Extract(): T
      requires Ok?
    {
      value
    }
  }

  /** The error every guard of the form `if (!region || !uid)` throws. */
  const MissingUid: Error := HoyoAPIError("UID parameter is missing or failed to be filled")
}
