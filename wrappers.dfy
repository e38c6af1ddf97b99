/** JavaScript's `null`/`undefined` for a value of a known kind. */
module Wrappers {

  datatype Option<+T> = None | Some(value: T)
}
