/** Optional values: the model's stand-in for JavaScript's `undefined` / `null`. */
module Options {

  datatype Option<+T> = None | Some(value: T) {

    /** The contained value, or `default` when absent (JavaScript's `x ?? default`). */
    function GetOr(default: T): T {
      match this
      case Some(v) => v
      case None => default
    }
  }
}
