/** The optional value used wherever the source returns null or an
    absent entry. */
module Opt {
  datatype Option<+T> = None | Some(value: T)
}
