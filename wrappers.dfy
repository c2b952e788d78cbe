/** The optional value used where the page has `null` or nothing. */
module Wrappers {
  datatype Option<+T> = None | Some(value: T)
}
