/** The JavaScript "value or undefined/null" shape, used wherever the source
    reads an optional field or returns null. */
module Options {

  datatype Option<+T> = None | Some(value: T) {

    /** The value, or `default` when absent. */
    function GetOr(default: T): T
    {
      match this
      case Some(v) => v
      case None => default
    }
  }

  /** JavaScript `s || default` on an optional string: an absent value and the
      empty string are both falsy and give way to the default. */
  function OrElse(s: Option<string>, default: string): (r: string)
    ensures s.Some? && s.value != "" ==> r == s.value
    ensures (s.None? || s.value == "") ==> r == default
  {
    match s
    case Some(t) => if t != "" then t else default
    case None => default
  }

  /** JavaScript truthiness of an optional string (`if (s)`). */
  predicate Truthy(s: Option<string>)
  {
    s.Some? && s.value != ""
  }
}
