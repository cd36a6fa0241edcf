/** An optional argument: `None` stands for a keyword argument left at its default. */
module Options {
  datatype Option<T> = None | Some(value: T)
}
