/** Optional values, the exceptions the modelled code raises, and a
    failure-compatible Result type so that `:-` propagates an exception
    the way Python unwinds to the caller. */
module Outcomes {

  datatype Option<+T> = None | Some(value: T)

  /** The Python exceptions raised by the modelled code, with their messages. */
  datatype Error =
    | ValueError(message: string)
    | ZeroDivisionError(message: string)

  datatype Result<+T> = Ok(value: T) | Err(error: Error) {

    predicate IsFailure() {
      Err?
    }

    function PropagateFailure<U>(): Result<U>
      requires Err?
    {
      Err(error)
    }

    function Extract(): T
      requires Ok?
    {
      value
    }
  }
}
