/** The optional value used wherever the client reads a `java.util.Optional` or a nullable reference. */
module Wrappers {

  datatype Option<+T> = None | Some(value: T)
}
