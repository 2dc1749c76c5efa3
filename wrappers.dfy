/** The Option type used wherever the Java source uses a nullable reference. */
module Wrappers {

  datatype Option<+T> = None | Some(value: T)
}
