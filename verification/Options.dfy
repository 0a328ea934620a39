/** The optional value used for the service's "zero time" stamps and failed lookups. */
module Options {
  datatype Option<+T> = None | Some(value: T)
}
