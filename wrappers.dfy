/** The nullable values of the storefront (`null` in the source) as an Option. */
module Wrappers {
  datatype Option<+T> = None | Some(value: T)
}
