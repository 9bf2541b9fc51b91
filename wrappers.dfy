/** A value that may be absent: JavaScript's `undefined`/`null` where the source
    treats the two alike, or a lookup that found nothing. */
module Wrappers {
  datatype Option<+T> = None | Some(value: T)
}
