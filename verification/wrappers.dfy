/** The optional value used wherever the source has `None` or a missing match. */
module Wrappers {

  datatype Option<+T> = None | Some(value: T)
}
