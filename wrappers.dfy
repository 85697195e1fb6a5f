/** The usual optional value, used where the scene holds `null` or a value. */
module Wrappers {

  datatype Option<+T> = None | Some(value: T)

}
