/** The conventional optional value, used for the typed lookups of the option bag. */
module Wrappers {
  datatype Option<+T> = None | Some(value: T)
}
