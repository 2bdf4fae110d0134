/** Small result types standing in for C++ exceptions, `std::optional` and null pointers. */
module Wrappers {
  /** An optional value (`std::optional`, or a pointer that may be null). */
  datatype Option<T> = None | Some(value: T)

  /** A value, or the exception that the source throws instead of returning it. */
  datatype Result<T, E> = Success(value: T) | Failure(error: E)

  /** The completion of an operation that returns nothing: it either returns or throws. */
  datatype Outcome<E> = Pass | Fail(error: E)
}
