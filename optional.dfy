/** A value that may be absent: JavaScript's `undefined`/`null`, or a
    reading the host did not provide. */
module Optional {

  datatype Option<+T> = None | Some(value: T) {

    /** The value, or `default` when absent. */
    function GetOr(default: T): T {
      match this
      case Some(v) => v
      case None => default
    }
  }
}
