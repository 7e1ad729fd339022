/** A value that may be absent: JavaScript's `undefined` or `null` on one side, a present value on the other. */
module Options {

  datatype Option<+T> = None | Some(value: T) {

    /** The present value, or `default` when absent (JavaScript's `x ?? default`). */
    function GetOr(default: T): T {
      match this
      case Some(v) => v
      case None => default
    }
  }

  /** JavaScript truthiness of an optional string: present and not empty. */
  predicate IsTruthy(o: Option<string>) {
    o.Some? && o.value != ""
  }

  /** `o || fallback` for an optional string. */
  function OrElse(o: Option<string>, fallback: string): (r: string)
    ensures IsTruthy(o) ==> r == o.value
    ensures !IsTruthy(o) ==> r == fallback
  {
    if IsTruthy(o) then o.value else fallback
  }

  /** The settled state of an awaited call: its value, or the error it threw. */
  datatype Result<+T, +E> = Ok(value: T) | Err(error: E)
}
