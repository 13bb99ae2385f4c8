/** Failure-carrying values used where Wasabi's methods answer None or exit. */
module Wrappers {

  /** A value or Python's None. */
  datatype Option<+T> = None | Some(value: T)

  /** A value or the reason it could not be produced. */
  datatype Result<+T, +E> = Success(value: T) | Failure(error: E)
}
