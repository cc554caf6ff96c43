/** The optional-value datatype used for every fallible step of the crawler model:
    a fetch that fails, an oracle call that raises, a reply that does not parse. */
module Wrappers {

  datatype Option<+T> = None | Some(value: T) {

    /** The wrapped value, or `default` when there is none (Python's `x if x is not None else d`). */
    function GetOr(default: T): T {
      match this
      case Some(v) => v
      case None => default
    }
  }
}
