/** Swift's `Optional`: a value that may be absent. */
module Optional {
  datatype Option<+T> = None | Some(value: T) {
    /** `self ?? default` */
    function GetOr(default: T): T {
      match this
      case Some(v) => v
      case None => default
    }
  }
}
