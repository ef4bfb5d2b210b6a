/** A nullable column. */
module Options {
  datatype Option<+T> = None | Some(value: T) {
    /** SQL's COALESCE(this, default). */
    function OrElse(default: T): (r: T) {
      match this
      case Some(v) => v
      case None => default
    }
  }
}
