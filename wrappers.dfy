/** Failure-compatible result type used for the encoder's error path. */
module Wrappers {

  /** Either a computed value or the error that stopped the computation. */
  datatype Result<+T, +E> = Success(value: T) | Failure(error: E)
}
