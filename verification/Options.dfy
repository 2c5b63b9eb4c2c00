/** The optional values used by every component: a nullable column, a missing
    dictionary entry, or an operation that can refuse. */
module Options {
  datatype Option<+T> = None | Some(value: T)
}
