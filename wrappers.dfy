/** Failure-compatible return types shared by the other modules. */
module Wrappers {

  /** A value that may be missing: a null handle, `std::string::npos`. */
  datatype Option<+T> = None | Some(value: T)

  /** The outcome of an operation that can throw. */
  datatype Result<+R, +E> = Success(value: R) | Failure(error: E)
}
