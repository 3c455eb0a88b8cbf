/** Shared value shapes: optional values, JavaScript truthiness of optional
    strings, and the JSON fragments that travel between the backend and the
    React client (triage objects and list items that may be strings or
    objects with a `name`). */
module Common {

  datatype Option<+T> = None | Some(value: T) {

    /** The wrapped value, or `default` when absent. */
    function GetOr(default: T): (r: T)
      ensures Some? ==> r == value
      ensures None? ==> r == default
    {
      match this
      case Some(v) => v
      case None => default
    }
  }

  /** JavaScript truthiness of a possibly missing string: `undefined`,
      `null` and the empty string are falsy. */
  predicate Truthy(s: Option<string>)
  {
    s.Some? && s.value != ""
  }

  /** The JavaScript expression `s || fallback` on a possibly missing string. */
  function OrElse(s: Option<string>, fallback: string): (r: string)
    ensures Truthy(s) ==> r == s.value
    ensures !Truthy(s) ==> r == fallback
  {
    if Truthy(s) then s.value else fallback
  }

  /** A triage object as produced by the triage engine and read by the
      client: both fields may be missing. */
  datatype Triage = Triage(level: Option<string>, reason: Option<string>)

  /** A JSON list item the client renders: either a bare string or an
      object whose `name` may be missing. */
  datatype Item = Str(text: string) | Obj(name: Option<string>)

  /** JavaScript stringification of an object in a template literal. */
  const ObjectText := "[object Object]"

  /** `typeof s === 'string' ? s : s.name || s`, as interpolated into text. */
  function DisplayName(it: Item): (r: string)
    ensures it.Str? ==> r == it.text
    ensures it.Obj? && Truthy(it.name) ==> r == it.name.value
    ensures it.Obj? && !Truthy(it.name) ==> r == ObjectText
  {
    match it
    case Str(s) => s
    case Obj(n) => OrElse(n, ObjectText)
  }
}
