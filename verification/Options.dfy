/** A value that may be missing: Python's None, SQL's NULL, a caught exception. */
module Options {
  datatype Option<T> = None | Some(value: T)
}
