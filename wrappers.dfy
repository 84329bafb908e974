/** Option type shared by the LS-8 modules. */
module Wrappers {
  datatype Option<+T> = None | Some(value: T)
}
