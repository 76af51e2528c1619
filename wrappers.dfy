/** The optional value used wherever the source has an optional field or `undefined`. */
module Wrappers {

  datatype Option<+T> = None | Some(value: T)
}
