/** The usual Some/None datatype, standing in for JavaScript's nullable values. */
module Wrappers {
  datatype Option<+T> = None | Some(value: T)
}
