/** A value that may be absent: an unset matrix, a vertex index that names no vertex. */
module Options {
  datatype Option<+T> = None | Some(value: T)
}
