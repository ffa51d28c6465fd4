/** The conventional Some/None datatype, used for results that JavaScript
    reports as `null` on failure. */
module Wrappers {
  datatype Option<+T> = None | Some(value: T)
}
