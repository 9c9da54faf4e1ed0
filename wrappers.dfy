/** Failure-carrying wrappers: Java's null/Optional and thrown exceptions become values. */
module Wrappers {

  /** `Optional<T>`, or a reference that may be null. */
  datatype Option<+T> = None | Some(value: T)

  /** The value of a call that either returns normally or throws. */
  datatype Result<+T, +E> = Ok(value: T) | Err(error: E)

  /** The completion of a `void` call that either returns normally or throws. */
  datatype Outcome<+E> = Pass | Fail(error: E)
}
