/** A value that may be missing: the source's NULL results. */
module Options {

  datatype Option<+T> = None | Some(value: T)
}
