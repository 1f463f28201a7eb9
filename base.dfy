/** Failure-compatible wrappers and the exceptions the adapter can raise. */
module Base {

  datatype Option<+T> = None | Some(value: T)

  /** A computation that either yields a value or raises an exception. */
  datatype Result<+T> = Ok(value: T) | Err(error: Error)

  /** The exceptions that the translation and the watch loop can meet. */
  datatype Error =
    | KeyError(key: string)              // a missing dictionary key
    | ValueError(literal: string)        // int() given a string that is not an integer
    | QuantityError(quantity: string)    // a quantity the size parser does not accept
    | ApiException(body: Option<string>) // the cluster API refused a request; body is the HTTP body, if any
    | SchedulerError(reason: string)     // anything else raised by the placement engine
}
