/** Failure-carrying values for the pipe's error paths: a Python exception
    raised by an operation becomes an `Err`, a missing argument a `None`. */
module Outcomes {

  datatype Option<+T> = None | Some(value: T)

  datatype Result<+T, +E> = Ok(value: T) | Err(error: E)
}
