/** Failure-carrying results and the name of a server, shared by the other modules. */
module Wrappers {

  type Server = string

  datatype Option<+T> = None | Some(value: T)

  datatype Result<+T, +E> = Ok(value: T) | Err(error: E)
}
