/** Failure-compatible wrappers shared by the model: `Option` for Python's
    "value or None" returns and `Result` for operations that raise. */
module Wrappers {

  datatype Option<+T> = None | Some(value: T)

  datatype Result<+T, +E> = Ok(value: T) | Err(error: E)
}
