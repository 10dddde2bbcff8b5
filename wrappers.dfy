/** Failure-carrying wrappers shared by the model. */
module Wrappers {

  /** A value that may be absent: Python's `Optional[T]`, or `None`. */
  datatype Option<+T> = None | Some(value: T)

  /** Either a value or an HTTP status code that the endpoint raises instead. */
  datatype Result<+T> = Ok(value: T) | Err(status: int)
}
