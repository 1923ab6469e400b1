/** The Some/None type for results Go reports with a second value or a nil pointer. */
module Options {
  datatype Option<+T> = None | Some(value: T)
}
