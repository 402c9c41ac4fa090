/** The absent-or-present value used wherever the scripts can return nothing. */
module Wrappers {
  datatype Option<T> = None | Some(value: T)
}
