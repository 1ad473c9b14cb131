/** The optional-value datatype used for the source's nullable references and
    nullable value types (`string`, `int?`, `bool?`). */
module Wrappers {

  /** `None` stands for C#'s `null`. */
  datatype Option<+T> = None | Some(value: T) {

    /** The C# null-coalescing operator `this ?? default`. */
    function GetOr(default: T): (r: T)
      ensures Some? ==> r == value
      ensures None? ==> r == default
    {
      match this
      case Some(v) => v
      case None => default
    }
  }
}
