/** Optional values: JavaScript's `undefined` / `null` next to a present value. */
module Wrappers {
  datatype Option<+T> = None | Some(value: T) {
    /** `v ?? d` */
    function GetOr(default: T): T {
      match this
      case Some(v) => v
      case None => default
    }
  }
}
