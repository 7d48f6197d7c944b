/** The optional-value wrapper used for JavaScript's `null`/`undefined` fields. */
module Wrappers {

  datatype Option<+T> = None | Some(value: T) {

    /** The value, or `default` when absent: the model of `x || default`
        for fields whose only falsy value is "missing". */
    function GetOr(default: T): T {
      match this
      case Some(v) => v
      case None => default
    }
  }
}
