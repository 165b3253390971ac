/** Failure-carrying wrappers shared by the webhook model. */
module Wrappers {

  /** An optional value: `None` stands for JavaScript's `undefined` or `null`. */
  datatype Option<+T> = None | Some(value: T)

  /** The outcome of an operation that can fail locally before any request is made. */
  datatype Result<+T, +E> = Ok(value: T) | Err(error: E)
}
