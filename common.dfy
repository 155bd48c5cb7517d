/** Values shared by the stores and the HTTP client: optional values, the
    outcome of an asynchronous call, and the error a failed call carries. */
module Common {

  /** A JavaScript value that may be `null` or `undefined`. */
  datatype Option<+T> = None | Some(value: T)

  /** A settled promise: resolved with a value or rejected with an error. */
  datatype Result<+T, +E> = Success(value: T) | Failure(error: E)

  /** A settled promise whose resolved value is not used. */
  datatype Outcome = Pass | Fail(error: Error)

  /** A thrown `Error`; only its `message` is ever read. */
  datatype Error = Error(message: string)

  /** The store state after an action, together with what the action returns
      (or throws) to its caller. */
  datatype Step<+S, +T> = Step(state: S, out: T)
}
