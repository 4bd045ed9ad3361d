/** The optional result a query returns: `None` plays the part of `undefined`. */
module Wrappers {

  datatype Option<+T> = None | Some(value: T)

}
