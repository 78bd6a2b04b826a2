/** Absence and failure values shared by the card store and the recommender. */
module Wrappers {

  /** A value that may be absent (JavaScript `undefined` / `null`). */
  datatype Option<+T> = None | Some(value: T)

  /** The outcome of an operation that can reject its promise. */
  datatype Result<+T, +E> = Ok(value: T) | Err(error: E)
}
