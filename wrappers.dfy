/** Option and Result: the model's stand-ins for C# null and for thrown exceptions. */
module Wrappers {

  /** A value that may be absent (a C# null reference or an empty `Nullable<T>`). */
  datatype Option<+T> = None | Some(value: T)

  /** The outcome of a call that either returns a value or throws. */
  datatype Result<+T, +E> = Success(value: T) | Failure(error: E)
}
