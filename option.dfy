/** An optional value: a JSON field that may be missing, or a text that may not parse. */
module Optional {

  datatype Option<T> = None | Some(value: T)

}
