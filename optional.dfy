/** An optional value: `None` stands for JavaScript's `undefined` or `null` where the
    source reads a field, a header or a configuration variable that may be absent. */
module Optional {

  datatype Option<+T> = None | Some(value: T) {

    /** The value, or `default` when there is none. */
    function GetOr(default: T): T {
      match this
      case Some(v) => v
      case None => default
    }
  }
}
