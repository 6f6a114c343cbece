/** An optional value, shared by the chunk-key parser and the noise-map call arguments. */
module Options {
  datatype Option<T> = None | Some(value: T)
}
