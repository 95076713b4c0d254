/** The optional value used for lookups that may find nothing and for JavaScript's NaN. */
module Wrappers {

  datatype Option<+T> = None | Some(value: T)
}
