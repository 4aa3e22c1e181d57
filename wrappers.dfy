/** Failure-carrying values shared by the handlers: a value that may be absent, and the
    outcome of a handler invocation (normal return, or an exception that escapes it). */
module Wrappers {

  datatype Option<+T> = None | Some(value: T)

  /** The kinds of exception the handlers let escape. */
  datatype Error =
    | MissingAttribute   // an AttributeError: the event detail has the other shape
    | IndexOutOfRange    // `split('/')[1]` on an ARN without '/'
    | PricingFailed      // the pricing oracle or the task-metadata lookup raised
    | StoreFailed        // a storage/IAM/API call raised something other than a failed condition
    | DateOverflow       // an OverflowError: date arithmetic left the years 1 to 9999

  datatype Outcome = Pass | Fail(error: Error)
}
