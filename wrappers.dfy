/** A value that the Java code may hold as `null`. */
module Wrappers {

  datatype Option<+T> = None | Some(value: T)
}
