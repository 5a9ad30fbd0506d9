/** A value that may be missing: a lookup that found nothing, a field left empty. */
module Options {
  datatype Option<+T> = None | Some(value: T)
}
