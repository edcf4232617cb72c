/** Python's `None`-or-value, used wherever the source returns `Optional[...]`. */
module Wrappers {

  datatype Option<+T> = None | Some(value: T) {
    function GetOr(default: T): T
    {
      match this
      case Some(v) => v
      case None => default
    }
  }

  /** A keyed read that may find nothing, find a value, or raise `KeyError`
      while decoding what it found. */
  datatype Fetched<+T> = Missing | Fetched(value: T) | KeyError
}
