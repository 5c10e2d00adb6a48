/** Optional values and the settlement of an awaited call. */
module Wrappers {

  /** A value that may be missing: an absent field, a signed-out user, `null`. */
  datatype Option<+T> = None | Some(value: T) {

    /** The carried value, or `default` when there is none. */
    function GetOr(default: T): T {
      match this
      case Some(v) => v
      case None => default
    }
  }

  /** How an awaited call into the document store, the file store or the
      network settled: with a value, or by throwing. The model never looks
      at what was thrown, since every handler only logs it. */
  datatype Settled<+T> = Resolved(value: T) | Rejected
}
