/** An optional value: a browser reading that may be absent, a timer that may be pending. */
module Options {
  datatype Option<+T> = None | Some(value: T)
}
