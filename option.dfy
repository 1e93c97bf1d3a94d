/** An optional value: the studio's `null`/`undefined` for a value that may be missing. */
module Opt {

  datatype Option<+T> = None | Some(value: T)
}
