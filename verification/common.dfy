/** Small value types shared by every module: nullable values, results and the
    outcome of one call into a foreign transport. */
module Common {

  /** A Java reference that may be null. */
  datatype Option<T> = None | Some(value: T)

  /** The two kinds of exception the core raises towards its callers. */
  datatype Failure =
    | IllegalArgument(message: string)
    | Runtime(message: string)

  /** A call that either returns a value or throws. */
  datatype Result<T> = Ok(value: T) | Err(failure: Failure)

  /** One attempt of a foreign call (mail server, SMS gateway, push gateway,
      broker): it either completes or throws an exception with a message. */
  datatype Outcome = Sent | Failed(reason: string)
}
