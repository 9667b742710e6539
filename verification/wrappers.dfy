/** Option and Result, the failure-carrying datatypes the rest of the model returns
    instead of throwing. */
module Wrappers {

  /** An optional value; `None` stands for a library call that threw or found nothing. */
  datatype Option<+T> = None | Some(value: T)

  /** Either a value or the error a JavaScript `throw` (or promise rejection) would carry. */
  datatype Result<+T, +E> = Success(value: T) | Failure(error: E)
}
