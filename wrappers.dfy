/** Small failure-compatible wrapper shared by every module of the model. */
module Wrappers {

  /** A value that may be absent: an unset form field, an empty session store,
      or the outcome of a per-record formatter that hit a missing key. */
  datatype Option<+T> = None | Some(value: T)
}
