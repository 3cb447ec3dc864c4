/** Optional values and error results shared by the other modules. */
module Wrappers {
  datatype Option<+T> = None | Some(value: T)

  /** The exceptions the original program can raise on the paths modelled here. */
  datatype Error = TypeError | EmptyChoice

  datatype Result<+T> = Ok(value: T) | Err(error: Error)
}
