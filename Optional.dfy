/** A value that may be absent: JavaScript's `undefined` for an optional
    property, or the miss of `Array.prototype.find`. */
module Optional {

  datatype Option<+T> = None | Some(value: T) {

    /** The value, or `default` when absent (`x ?? default`). */
    function GetOr(default: T): T {
      match this
      case Some(v) => v
      case None => default
    }
  }
}
