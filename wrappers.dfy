/** Failure-carrying values shared by the modules of the model. */
module Wrappers {

  /** A value that may be absent (PHP's null or false where the source returns one). */
  datatype Option<T> = None | Some(value: T)

  /** A value, or the exception the source throws instead of returning it. */
  datatype Result<T, E> = Ok(value: T) | Err(error: E)

  /** A call that returns nothing, or the exception it throws. */
  datatype Outcome<E> = Pass | Fail(error: E)
}
