/** A value that may be absent: an undefined JavaScript property, an unset
    environment variable, a body that does not parse. */
module Wrappers {

  datatype Option<+T> = None | Some(value: T)
}
