/** The optional value used for lookups and for scroll attempts that may be rejected. */
module Wrappers {

  datatype Option<+T> = None | Some(value: T)
}
