/** The optional-value datatype shared by every module of the model. A JavaScript
    field that is `undefined` (or `null`) is `None`; a field holding a value is `Some`. */
module Wrappers {

  datatype Option<+T> = None | Some(value: T) {

    /** Returns the value held in Some or the given default for None. */
    function GetOr(default: T): (r: T)
      ensures Some? ==> r == value
      ensures None? ==> r == default
    {
      match this
      case Some(v) => v
      case None => default
    }
  }
}
