/** An optional value: a missing field (`undefined`) or `null`. */
module Wrappers {
  datatype Option<T> = None | Some(value: T)
}
