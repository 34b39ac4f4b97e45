/** A value that may be absent: a `localStorage` key that was never written,
    or the `null` an id starts out as. */
module Wrappers {

  datatype Option<+T> = None | Some(value: T)
}
