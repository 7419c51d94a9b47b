/** The absent-or-present values that nullable columns and dictionary lookups produce. */
module Options {
  datatype Option<+T> = None | Some(value: T)
}
