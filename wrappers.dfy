/** Option and Result: Ruby's nil and raised errors, made explicit. */
module Wrappers {

  /** A value that may be nil. */
  datatype Option<+T> = None | Some(value: T)

  /** An outcome that is either a value or the error the Ruby code would raise. */
  datatype Result<+T, +E> = Success(value: T) | Failure(error: E)
}
