/** The optional value used across the model: `None` stands for JavaScript's
    `null`, a missing storage entry, or a parse that gave `NaN`. */
module Wrappers {

  datatype Option<T> = None | Some(value: T) {
    function GetOr(default: T): (r: T)
      ensures Some? ==> r == value
      ensures None? ==> r == default
    {
      match this
      case Some(v) => v
      case None => default
    }
  }
}
