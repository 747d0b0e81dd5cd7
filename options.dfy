// A value that may be absent: a JavaScript `undefined`/`null`, a missing
// document field, or a key missing from a request body.
module Options {

  datatype Option<+T> = None | Some(value: T) {

    /** The carried value, or `default` when absent (JavaScript's `a ?? b`). */
    function GetOr(default: T): T {
      match this
      case Some(v) => v
      case None => default
    }
  }
}
