/** Python's `None`-or-value, used for every optional manifest attribute. */
module Wrappers {

  datatype Option<+T> = None | Some(value: T)
}
