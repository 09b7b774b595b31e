/** The success-or-error value that the aggregate's command handler returns. */
module Wrappers {

  datatype Result<+T, +E> = Ok(value: T) | Err(error: E)

}
