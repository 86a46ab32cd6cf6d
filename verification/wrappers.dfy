/** The optional value used where the application holds `null` or where a
    JavaScript lookup would produce `undefined`. */
module Wrappers {

  datatype Option<+T> = None | Some(value: T)
}
