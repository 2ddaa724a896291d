/** The optional value used where the view renders `null` or leaves a handler `undefined`. */
module Wrappers {

  datatype Option<+T> = None | Some(value: T)
}
