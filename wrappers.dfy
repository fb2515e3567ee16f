/** Optional values and results with an error, shared by every module of the model. */
module Wrappers {

  /** A value that may be missing: a nullable SQL column, a parser that may fail. */
  datatype Option<+T> = None | Some(value: T)

  /** The outcome of a step that either yields a value or stops with an error. */
  datatype Result<+T, +E> = Success(value: T) | Failure(error: E)
}
