/** The conventional optional value, used where the source has a nilable pointer or an "ok" result. */
module Wrappers {
  datatype Option<+T> = None | Some(value: T)
}
