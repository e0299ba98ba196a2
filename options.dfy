/** The optional value used wherever the source reads something that may be absent
    (`null` from a lookup, a failed upload, an unset error message). */
module Options {
  datatype Option<+T> = None | Some(value: T)
}
