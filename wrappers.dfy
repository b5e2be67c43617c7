/** Presence of an optional value, as the source's `Option<T>`. */
module Wrappers {

  datatype Option<+T> = None | Some(value: T)
}
