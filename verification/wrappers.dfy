/** Failure-compatible wrappers shared by the modules. */
module Wrappers {

  /** A value that may be absent (`undefined` in the dashboard's code). */
  datatype Option<+T> = None | Some(value: T) {

    /** The wrapped value, or `default` when absent. */
    function GetOr(default: T): T {
      match this
      case Some(v) => v
      case None => default
    }
  }

  /** How an awaited promise settled: it rejected (threw), or resolved to a value. */
  datatype Settled<+T> = Rejected | Resolved(value: T)
}
