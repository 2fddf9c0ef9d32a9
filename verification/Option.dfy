/** The one wrapper every module shares: a nullable column. */
module Option {
  datatype Option<+T> = None | Some(value: T)
}
