/** The optional value used wherever the JavaScript code holds a value or `undefined`. */
module Wrappers {

  datatype Option<+T> = None | Some(value: T)
}
