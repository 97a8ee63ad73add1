/** A value that may be missing: the source's nil results and "ok" returns. */
module Wrappers {

  datatype Option<+T> = None | Some(value: T)
}
