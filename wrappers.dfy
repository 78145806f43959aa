/** The optional value used wherever the R2R processor reads something that may be absent:
    an environment variable, a token on the client, a claim in a token, a key in a record. */
module Wrappers {

  datatype Option<+T> = None | Some(value: T) {

    /** The value, or `default` when there is none (Python's `d.get(key, default)`). */
    function GetOr(default: T): T {
      match this
      case Some(v) => v
      case None => default
    }
  }
}
