/** Octets and the failure-carrying wrappers shared by the packet model. */
module Base {

  /** One octet of a binary string (a JavaScript character code in 0..255). */
  newtype byte = x: int | 0 <= x < 256

  /** A value that may be missing; `None` stands for JavaScript's `null`. */
  datatype Option<+T> = None | Some(value: T)

  /** The outcome of an operation that may throw. */
  datatype Result<+T, +E> = Success(value: T) | Failure(error: E)
}
