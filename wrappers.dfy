/** Option and Result, the two failure-carrying shapes the model uses for
    "a value may be missing" and "the call may throw". */
module Wrappers {
  datatype Option<+T> = None | Some(value: T)

  datatype Result<+T, +E> = Ok(value: T) | Err(error: E)
}
