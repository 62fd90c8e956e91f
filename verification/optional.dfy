/** An optional value: a Go pointer that may be nil, a lookup that may find nothing. */
module Optional {
  datatype Option<+T> = None | Some(value: T)
}
