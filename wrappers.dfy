/** The optional value used wherever the script leaves a property `undefined`. */
module Wrappers {
  datatype Option<T> = None | Some(value: T)
}
