/** A value that may be missing: the source's nil pointers and absent rows. */
module Options {
  datatype Option<+T> = None | Some(value: T)
}
