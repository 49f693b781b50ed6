/** The JavaScript values `undefined` and `null` in the places where the
    program accepts them: an absent parameter or a nullable field. */
module Wrappers {

  datatype Option<T> = None | Some(value: T) {

    /** The value, or `default` when it is absent (a destructuring default). */
    function GetOr(default: T): T {
      match this
      case Some(v) => v
      case None => default
    }
  }
}
