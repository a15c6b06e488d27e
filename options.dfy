/** A value that may be absent: a missing request field, a lookup that found nothing, a NaN. */
module Options {

  datatype Option<+T> = None | Some(value: T)
}
