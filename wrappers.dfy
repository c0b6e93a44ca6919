/** The optional value used where the Python source returns None. */
module Wrappers {

  datatype Option<+T> = None | Some(value: T)
}
