/** Option type used for the source's "value, ok" and nil cases. */
module Wrappers {
  datatype Option<+T> = None | Some(value: T)
}
