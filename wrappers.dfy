/** Result types for the error paths of the simulator. */
module Wrappers {

  datatype Option<+T> = None | Some(value: T)

  /** The value of an operation that either produces a value or fails with an error. */
  datatype Result<+R, +E> = Ok(value: R) | Err(error: E)

  /** The value of an operation that produces nothing but may fail with an error. */
  datatype Outcome<+E> = Pass | Fail(error: E)
}
