/** Swift's `Optional`, as a datatype. */
module Wrappers {
  datatype Option<T> = None | Some(value: T)
  {
    /** `x ?? d` */
    function GetOr(d: T): (r: T)
      ensures this.Some? ==> r == this.value
      ensures this.None? ==> r == d
    {
      match this
      case None => d
      case Some(v) => v
    }
  }
}
