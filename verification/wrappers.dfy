/** The optional value used where the component stores `null`. */
module Wrappers {

  datatype Option<+T> = None | Some(value: T)

}
