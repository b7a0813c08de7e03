/** The optional value used wherever the source has a value that may be absent
    (a missing header, a `null` payload, a failed lookup). */
module Options {

  datatype Option<+T> = None | Some(value: T) {

    /** The value, or `default` when there is none. */
    function GetOr(default: T): T {
      match this
      case Some(v) => v
      case None => default
    }
  }
}
