/** An optional value, for the pointers and comma-ok results of the source. */
module Common {
  datatype Option<+T> = None | Some(value: T)
}
