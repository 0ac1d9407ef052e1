/** Go `error` values as the effigy plugin creates and passes them on. */
module Errors {

  datatype Option<T> = None | Some(value: T)

  /** An `error` value. Errors that come from a collaborator (the osquery
      client, the HTTP client) are opaque: only their text is known. */
  datatype Error =
    | Foreign(text: string)                  // returned by code outside this program
    | Wrapped(message: string, cause: Error) // errors.Wrap(cause, message)
    | Formatted(text: string)                // fmt.Errorf(...)

  /** A Go `(T, error)` pair in which exactly one side is meaningful. */
  datatype Result<T> = Ok(value: T) | Err(error: Error)

  predicate StartsWith(s: string, prefix: string) {
    |prefix| <= |s| && s[..|prefix|] == prefix
  }

  predicate EndsWith(s: string, suffix: string) {
    |suffix| <= |s| && s[|s| - |suffix|..] == suffix
  }

  /** `sub` occurs somewhere in `s`. */
  predicate Contains(s: string, sub: string) {
    exists i | 0 <= i <= |s| :: StartsWith(s[i..], sub)
  }

  /** Whatever contains a text contains each of its prefixes. */
  lemma ContainsPrefix(s: string, sub: string, prefix: string)
    requires Contains(s, sub) && StartsWith(sub, prefix)
    ensures Contains(s, prefix)
  {
  }

  /** errors.Cause: the innermost error under any number of wraps. */
  function Cause(e: Error): (c: Error)
    ensures !c.Wrapped?
    ensures !e.Wrapped? ==> c == e
  {
    if e.Wrapped? then Cause(e.cause) else e
  }

  /** The text `Error()` returns. A wrapped error reads "message: cause",
      so each wrap puts its message in front and keeps the cause's text
      at the end. */
  function Message(e: Error): (s: string)
    ensures e.Wrapped? ==> StartsWith(s, e.message + ": ")
    ensures EndsWith(s, Cause(e).text)
  {
    match e
    case Foreign(t) => t
    case Formatted(t) => t
    case Wrapped(m, c) =>
      var inner := Message(c);
      var s := m + ": " + inner;
      assert s[|s| - |inner|..] == inner;
      s
  }
}
