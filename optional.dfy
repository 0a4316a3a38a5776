/** A value that may be absent: the model of a nullable Java reference. */
module Optional {
  datatype Option<+T> = None | Some(value: T)
}
