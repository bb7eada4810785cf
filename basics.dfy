/** Option and Result: the model's stand-ins for null references and for exceptions. */
module Basics {

  /** A value that may be absent; `None` models a C# null reference. */
  datatype Option<+T> = None | Some(value: T)

  /** The outcome of an operation that can throw; `Err` carries the exception that was raised. */
  datatype Result<+T, +E> = Ok(value: T) | Err(error: E)
}
