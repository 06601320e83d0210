/** The optional value used for "nothing selected", "not found" and "not numeric". */
module Wrappers {
  datatype Option<+T> = None | Some(value: T)
}
