/** An optional value: `undefined` in the source, or a lookup that found nothing. */
module Optional {
  datatype Option<T> = None | Some(value: T)
}
