/** The optional-value type used for `null` results and for absent fields of partial updates. */
module Options {

  datatype Option<+T> = None | Some(value: T) {

    /** The wrapped value, or `default` when there is none (JavaScript's `x || default`, `x ?? default`). */
    function GetOr(default: T): T
    {
      match this
      case Some(v) => v
      case None => default
    }
  }

  /** One field of a spread merge `{ ...previous, ...update }`: the update's value where it has one, the previous value elsewhere. */
  ghost predicate Merged<X>(result: X, previous: X, update: Option<X>)
  {
    result == if update.Some? then update.value else previous
  }
}
