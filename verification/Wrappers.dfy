/** The optional value that stands in for the nullable pointers of the C++ code. */
module Wrappers {
  datatype Option<+T> = None | Some(value: T)
}
