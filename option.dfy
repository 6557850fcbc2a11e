/** The optional value used wherever the source reads a field that may be absent. */
module Optional {

  datatype Option<T> = None | Some(value: T) {

    /** The value, or `default` when absent: Python's `d.get(key, default)`. */
    function GetOr(default: T): T {
      match this
      case Some(v) => v
      case None => default
    }
  }
}
