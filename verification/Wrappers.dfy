// Small result types shared by the models.
module Wrappers {
  datatype Option<+T> = None | Some(value: T)

  datatype Result<+E> = Ok | Err(error: E)
}
