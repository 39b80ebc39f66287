/** A value that may be missing. The input handlers use `None` for NaN: a
    parse that found no number, or a quotient computed from one. */
module Wrappers {

  datatype Option<+T> = None | Some(value: T)
}
