/** A value that may be missing: an unpriced bar, an unset parameter, a nullable column. */
module Options {
  datatype Option<+T> = None | Some(value: T)
}
