/** Python's `None`-or-value, used for the session slots, the environment
    lookups and the model's answer. */
module Wrappers {
  datatype Option<+T> = None | Some(value: T)
}
