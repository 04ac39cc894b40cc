/** Option and Result, the failure-carrying wrappers the rest of the model uses. */
module Wrappers {

  /** An optional value: `std::optional` in the source. */
  datatype Option<+T> = None | Some(value: T)

  /** A value or the reason there is none: an `exit(1)` path in the source. */
  datatype Result<+T, +E> = Success(value: T) | Failure(error: E)
}
