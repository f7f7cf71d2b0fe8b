/** An optional value, for a lookup that may find nothing. */
module Optional {
  datatype Option<+T> = None | Some(value: T) {
    /** `x ?? d`: the value, or `d` when there is none. */
    function GetOr(d: T): T {
      match this
      case Some(v) => v
      case None => d
    }
  }
}
