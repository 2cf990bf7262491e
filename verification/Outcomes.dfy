// Result types shared by the modules below.
module Outcomes {

  /** A nullable column, argument or return value. */
  datatype Option<+T> = None | Some(value: T)

  /** A return value, or the exception raised instead of it. */
  datatype Result<+T, +E> = Ok(value: T) | Err(error: E)
}
