/** Small shared vocabulary: the JavaScript `null`/`undefined` alternative. */
module Base {

  /** A value that may be absent (`null` or `undefined` in the source). */
  datatype Option<+T> = None | Some(value: T) {

    /** The value, or `default` when absent: the source's `x || default` on a truthy x. */
    function GetOr(default: T): T {
      match this
      case Some(v) => v
      case None => default
    }
  }
}
