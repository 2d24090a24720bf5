/** A value that may be absent: a JavaScript `undefined`, or an optional prop. */
module Wrappers {
  datatype Option<+T> = None | Some(value: T)
}
