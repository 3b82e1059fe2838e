/** Option: the model's stand-in for a nullable Java reference. */
module Wrappers {

  datatype Option<+T> = None | Some(value: T)
}
