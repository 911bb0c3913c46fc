/** A JavaScript value that may be `undefined`, or the outcome of a step
    that may throw: `None` is the missing value or the throw. */
module Optional {

  datatype Option<+T> = None | Some(value: T) {

    /** The held value, or `fallback` when there is none, as a default in a
        destructuring pattern supplies it. */
    function OrElse(fallback: T): T {
      if Some? then value else fallback
    }
  }
}
