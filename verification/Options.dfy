/** A value that may be absent: a null pointer, an object not constructed, a call without result. */
module Options {
  datatype Option<+T> = None | Some(value: T) {
    function GetOr(default: T): T { if Some? then value else default }
  }
}
