/** The optional value used where the source uses a nil pointer, a nil function or a comma-ok lookup. */
module Options {
  datatype Option<+T> = None | Some(value: T)
}
