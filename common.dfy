/** Small shared vocabulary. */
module Common {

  /** A value that may be absent: a server call that failed, a file chooser that was cancelled. */
  datatype Option<+T> = None | Some(value: T) {
    /** The carried value, or `default` when there is none. */
    function GetOr(default: T): T {
      match this
      case Some(v) => v
      case None => default
    }
  }
}
