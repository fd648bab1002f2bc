/** Option and Result, used for the nullable values and the exceptions of the system. */
module Wrappers {

  /** A value that may be absent: `null` in the C# and TypeScript sources. */
  datatype Option<+T> = None | Some(value: T)

  /** The outcome of an operation that may throw: the thrown error is carried as a value. */
  datatype Result<+T, +E> = Success(value: T) | Failure(error: E)
}
