/** The stock optional value: a column that may be NULL, a lookup that may miss. */
module Options {
  datatype Option<+T> = None | Some(value: T)
}
