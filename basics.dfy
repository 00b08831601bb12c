/** Option and Result values shared by the modules of the backtesting core. */
module Basics {

  /** A value that may be absent (Python's `None`). */
  datatype Option<T> = None | Some(value: T)

  /** The outcome of an operation that raises instead of returning. */
  datatype Result<T, E> = Success(value: T) | Failure(error: E)
}
