/** A value that may be absent: Python's `None`, TypeScript's `null`. */
module Optional {
  datatype Option<+T> = None | Some(value: T)
}
