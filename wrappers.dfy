/** The optional value used wherever the source may leave something undefined. */
module Wrappers {
  datatype Option<+T> = None | Some(value: T)
}
