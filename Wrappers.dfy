/** Optional values and results, standing in for C# nulls and thrown exceptions. */
module Wrappers {

  /** A value that may be absent: `None` plays the part of a C# `null`. */
  datatype Option<+T> = None | Some(value: T)

  /** The outcome of an operation that may throw: `Failure` names the exception. */
  datatype Result<+R, +E> = Success(value: R) | Failure(error: E)
}
