/** The exceptions raised by the C-emulation layer, and the wrappers that carry them. */
module CErrors {

  /** The Python exception kinds the backend raises, with their messages where the code builds one. */
  datatype Error =
    | TypeError(msg: string)
    | OverflowError(msg: string)
    | ValueError(msg: string)
    | IndexError
    | AttributeError(msg: string)
    | ZeroDivisionError
    | AssertionError

  datatype Option<+T> = None | Some(value: T)

  /** A value or the exception raised while computing it. */
  datatype Result<+T> = Ok(value: T) | Err(error: Error) {
    predicate IsFailure() { Err? }

    function PropagateFailure<U>(): Result<U>
      requires Err?
    {
      Err(error)
    }

    function Extract(): T
      requires Ok?
    {
      value
    }
  }

  /** The outcome of an operation that only changes state. */
  datatype Outcome = Pass | Fail(error: Error)
}
