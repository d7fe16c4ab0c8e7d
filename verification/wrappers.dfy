/** Option and Result datatypes shared by the progress translators. */
module Wrappers {

  /** An optional value; `None` stands for Python's `None`. */
  datatype Option<+T> = None | Some(value: T)

  /** The outcome of a call that either returns a value or raises. */
  datatype Result<+T, +E> = Success(value: T) | Failure(error: E)
}
