/** Small failure-carrying datatypes shared by the calculators and the dashboard. */
module Wrappers {

  /** A value that may be absent (a missing JSON key, an unknown lookup key). */
  datatype Option<+T> = None | Some(value: T)

  /** The outcome of an operation that either produces a value or reports why it refused. */
  datatype Result<+T, +E> = Ok(value: T) | Err(error: E)
}
