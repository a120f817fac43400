/** Failure-carrying values shared by the whole model. */
module Wrappers {

  datatype Option<+T> = None | Some(value: T)

  /** The kinds of error the shim reports. `Generic` stands for an error made with
      errors.New or an operating-system error passed through unclassified. */
  datatype Error =
    | InvalidArgument(msg: string)
    | FailedPrecondition(msg: string)
    | NotFound(msg: string)
    | NotImplemented(msg: string)
    | IO(msg: string)
    | Generic(msg: string)

  /** A value or the error that prevented it. */
  datatype Result<+T> = Ok(value: T) | Err(error: Error)

  /** The `error` return of an operation that returns nothing else. */
  datatype Outcome = Pass | Fail(error: Error)
}
