/** The optional value used wherever the dashboard reads something that may
    be absent: a `find` with no match, a response that never arrived, a
    property read that throws. */
module Wrappers {

  datatype Option<+T> = None | Some(value: T) {

    /** The carried value, or `default` when there is none. */
    function GetOr(default: T): T {
      match this
      case Some(v) => v
      case None => default
    }
  }
}
