/** A value that may be absent, as a JavaScript property that may be `undefined`. */
module Options {
  datatype Option<+T> = None | Some(value: T)
}
