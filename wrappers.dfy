/** A value that may be missing: JavaScript's `null` and `undefined` are `None`. */
module Wrappers {

  datatype Option<+T> = None | Some(value: T)
}
