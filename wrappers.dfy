/** The optional value used for dictionary lookups and partial conversions. */
module Wrappers {
  datatype Option<+T> = None | Some(value: T)
}
