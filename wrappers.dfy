/** The Option type used for values that may be missing: an entry whose text
    does not parse, a sample buffer not yet loaded, a list index out of range. */
module Wrappers {

  datatype Option<+T> = None | Some(value: T)

}
