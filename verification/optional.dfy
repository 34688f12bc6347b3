/** A value that may be missing: JavaScript's `undefined`/`null` for an optional field. */
module Optional {

  datatype Option<+T> = None | Some(value: T)
}
