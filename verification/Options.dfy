// A value that may be missing: a nullable column, or the outcome of a
// transaction that may be rolled back.
module Options {
  datatype Option<+T> = None | Some(value: T)
}
