/** An optional value: Go's `error` (nil or a message) and similar. */
module Options {

  datatype Option<+T> = None | Some(value: T)
}
