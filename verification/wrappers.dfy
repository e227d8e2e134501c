/** An optional value: an absent JavaScript property or environment variable is `None`. */
module Wrappers {
  datatype Option<+T> = None | Some(value: T)
}
