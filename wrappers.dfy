/** The usual Some/None datatype, standing in for a value that may be missing
    (a storage read that finds nothing, a `null` user). */
module Wrappers {

  datatype Option<+T> = None | Some(value: T)
}
