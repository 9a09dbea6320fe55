/** Optional values: an absent dictionary key, a `None` returned by a lookup,
    or a resource the appliance reported as not found. */
module Wrappers {

  datatype Option<+T> = None | Some(value: T)

  /** How a reconciler ends: it returns its `ret` flag, or an NSNitroError
      it does not catch propagates out of it. */
  datatype Outcome = Returned(ok: bool) | Raised
}
