/** The optional value used where the source yields `nil`. */
module Wrappers {
  datatype Option<+T> = None | Some(value: T)
}
