/** An optional value: a pointer that may be null, a clause that may be absent. */
module Options {
  datatype Option<T> = None | Some(value: T)
}
