/** Shared value wrappers: JavaScript's `null`/`undefined` and thrown errors,
    made explicit. */
module Base {

  /** A value that may be absent (`null` or `undefined` in the source). */
  datatype Option<+T> = None | Some(value: T) {
    function GetOr(default: T): T {
      match this
      case Some(v) => v
      case None => default
    }
  }

  /** The settled outcome of an awaited call: its value, or the message of
      the error it rejected with. */
  datatype Result<+T> = Ok(value: T) | Err(msg: string)

  /** JavaScript truthiness of a possibly missing string: `undefined`, `null`
      and `''` are falsy. */
  predicate Truthy(s: Option<string>) {
    s.Some? && s.value != ""
  }

  /** `a || b` on possibly missing strings. */
  function OrElse(a: Option<string>, b: string): (r: string)
    ensures Truthy(a) ==> r == a.value
    ensures !Truthy(a) ==> r == b
  {
    if a.Some? && a.value != "" then a.value else b
  }
}
