/** The two-sided result of a fallible operation. */
module Outcomes {
  datatype Result<+T, +E> = Ok(value: T) | Err(error: E)
  datatype Option<+T> = None | Some(value: T)
}
