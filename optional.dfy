/** An optional value: a CSS property or a selector that may be unset. */
module Optional {

  datatype Option<+T> = None | Some(value: T)
}
