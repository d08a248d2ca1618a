/** The optional value used for answers that may not have been given yet. */
module Options {

  datatype Option<+T> = None | Some(value: T) {

    /** The value if present, otherwise the given default (Python's `dict.get(key, default)`). */
    function GetOr(default: T): T {
      match this
      case Some(v) => v
      case None => default
    }
  }
}
