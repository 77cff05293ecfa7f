/** An optional value: the model's stand-in for an omitted argument, a JSON
    `null`, or a request that did not complete. */
module Wrappers {

  datatype Option<T> = None | Some(value: T) {

    /** The carried value, or `fallback` when there is none. */
    function ValueOr(fallback: T): T {
      if Some? then value else fallback
    }
  }
}
