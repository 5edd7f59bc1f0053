/** Failure-carrying datatypes shared by the other modules. */
module Wrappers {

  /** A value that may be absent; in the summary table it plays the part of SQL NULL. */
  datatype Option<T> = None | Some(value: T)

  /** A computed value or the error that stopped the computation. */
  datatype Result<T, E> = Ok(value: T) | Err(error: E)

  /** The outcome of a statement that returns nothing but may raise. */
  datatype Outcome<E> = Pass | Fail(error: E)
}
