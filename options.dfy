/** An optional value: a field of a rich-text element that may be absent. */
module Options {

  datatype Option<+T> = None | Some(value: T)
}
