/** Go's error values as the library produces and returns them.

    A Go `error` is either a plain message (`errors.New`, `fmt.Errorf` without `%w`)
    or a wrapper made by `fmt.Errorf("prefix: %w", err)`, whose message is the prefix
    followed by the cause's message and whose `Unwrap` gives the cause back.
    A nil error is `None`. */
module Errors {

  datatype Option<+T> = None | Some(value: T)

  /** A `(value, error)` return in which the value is only meaningful without an error. */
  datatype Result<+T> = Ok(value: T) | Err(error: Error)

  datatype Error =
    | Plain(text: string)
    | Wrapped(prefix: string, cause: Error)

  /** `err.Error()`: the message a caller sees. */
  function Text(e: Error): string
  {
    match e
    case Plain(t) => t
    case Wrapped(p, c) => p + Text(c)
  }

  /** `errors.Unwrap`. */
  function Unwrap(e: Error): (r: Option<Error>)
    ensures r.Some? <==> e.Wrapped?
  {
    match e
    case Plain(_) => None
    case Wrapped(_, c) => Some(c)
  }

  /** `errors.Is` for errors compared by value: `target` occurs on the unwrap chain of `e`. */
  predicate Is(e: Error, target: Error)
  {
    e == target || (e.Wrapped? && Is(e.cause, target))
  }

  /** `fmt.Errorf(prefix + "%w", e)`. */
  function Wrap(prefix: string, e: Error): (w: Error)
    ensures Text(w) == prefix + Text(e)
    ensures Unwrap(w) == Some(e)
  {
    Wrapped(prefix, e)
  }

  /** Wrapping with `%w` keeps the cause, and everything under it, visible to `errors.Is`. */
  lemma WrapIs(prefix: string, e: Error, target: Error)
    requires Is(e, target)
    ensures Is(Wrap(prefix, e), target)
  {
  }
}
