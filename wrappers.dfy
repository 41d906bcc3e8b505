/** The optional value GetBytes returns: Go signals a miss with a nil slice. */
module Wrappers {

  datatype Option<+T> = None | Some(value: T)

}
