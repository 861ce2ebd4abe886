/** The optional values of a force term's configuration (Python's `None`). */
module Wrappers {

  datatype Option<+T> = None | Some(value: T)

}
