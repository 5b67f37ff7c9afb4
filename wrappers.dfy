/** The optional value used wherever the source holds `null` or `undefined`. */
module Wrappers {
  datatype Option<T> = None | Some(value: T)
}
