/** Small shared vocabulary: optional values. */
module Common {

  /** A value that may be absent (`null`/`undefined` in TypeScript, `None` in Python). */
  datatype Option<+T> = None | Some(value: T) {
    function GetOr(default: T): T {
      match this
      case Some(v) => v
      case None => default
    }
  }
}
