/** The optional value that stands for the source's `undefined`/`null` where a
    value of one type may be absent. */
module Optional {

  datatype Option<+T> = None | Some(value: T) {

    /** The value, or a default when absent (the source's `x ?? d`). */
    function GetOr(default: T): T
    {
      match this
      case Some(v) => v
      case None => default
    }

    /** This value if present, else `other` (the source's `a ?? b` when both
        may be absent). */
    function Or(other: Option<T>): Option<T>
    {
      if Some? then this else other
    }
  }
}
