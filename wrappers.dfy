/** An optional value, shared by the token guards and the repository lookups. */
module Wrappers {
  datatype Option<T> = None | Some(value: T)
}
