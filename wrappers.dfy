/** The optional value used where the build code carries a path that may be unset
    (an OptionalPath, or a zero-valued Path field). */
module Wrappers {

  datatype Option<+T> = None | Some(value: T)
}
