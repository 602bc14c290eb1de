/** Option and Result values: C#'s nullable references ("string?", a reply
    that may be null) and the exceptions the source throws and catches. */
module Wrappers {

  /** A value that may be absent; None stands for C#'s null. */
  datatype Option<+T> = None | Some(value: T)

  /** The outcome of a call that may throw: the value it returns, or the
      exception it throws. */
  datatype Result<+R, +E> = Success(value: R) | Failure(error: E)
}
