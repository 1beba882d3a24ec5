/** The absent-or-present value used throughout the model: JavaScript's
    `undefined`/`null` and Python's `None` on one side, a value on the other. */
module Optional {

  datatype Option<+T> = None | Some(value: T) {

    /** The value, or `default` when there is none. */
    function GetOr(default: T): T {
      match this
      case Some(v) => v
      case None => default
    }
  }
}
