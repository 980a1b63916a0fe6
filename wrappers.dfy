/** Plain option and result datatypes: Python's `None`, raised exceptions
    and "returns or raises" are written with these, with the error cases
    matched explicitly. */
module Wrappers {

  datatype Option<+T> = None | Some(value: T)

  /** A call that returns a value or raises an exception. */
  datatype Result<+T, +E> = Success(value: T) | Failure(error: E)

  /** A call that returns nothing or raises an exception. */
  datatype Outcome<+E> = Pass | Fail(error: E)
}
