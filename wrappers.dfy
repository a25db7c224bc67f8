/** A value that may be missing: stands for a JavaScript value that can be `null` or `undefined`. */
module Wrappers {

  datatype Option<+T> = None | Some(value: T)
}
