/** The optional value used wherever the source yields `null`/`undefined` or a missing key. */
module Wrappers {
  datatype Option<T> = None | Some(value: T)
}
