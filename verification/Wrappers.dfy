/** Absent and present values, used for `null` and `undefined` results. */
module Wrappers {
  datatype Option<+T> = None | Some(value: T)
}
