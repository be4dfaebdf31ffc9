/** An optional value: a parse that may fail, a table that may be absent. */
module Wrappers {
  datatype Option<T> = None | Some(value: T)
}
