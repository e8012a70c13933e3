/** The optional value used wherever the program works with "X or None". */
module Wrappers {
  datatype Option<+T> = None | Some(value: T)
}
