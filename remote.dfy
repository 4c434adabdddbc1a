/** Shared vocabulary of the dashboard: optional values, the abstract outcome of
    a call to the REST API, and JavaScript's `||` on values that may be missing. */
module Remote {

  datatype Option<T> = None | Some(value: T)

  /** What a rejected request exposes to a handler: `err.response?.data?.msg`,
      `err.response?.data?.message` (screens read one or the other) and the
      exception's own `err.message`. A transport failure has no response, so
      both server fields are None. */
  datatype RequestError = RequestError(msg: Option<string>, message: Option<string>, exceptionMessage: Option<string>)

  /** The awaited result of one API call: the value the handler reads from the
      response, or the error caught by its `catch` block. */
  datatype Outcome<T> = Success(value: T) | Failure(error: RequestError)

  /** JavaScript truthiness of a string that may be undefined or null: both
      and the empty string are falsy. */
  predicate Truthy(s: Option<string>)
  {
    s.Some? && s.value != ""
  }

  /** `s || fallback` with a string literal on the right. */
  function Or(s: Option<string>, fallback: string): string
  {
    if Truthy(s) then s.value else fallback
  }

  /** `a || b` when the right side may be missing too. */
  function OrElse(a: Option<string>, b: Option<string>): Option<string>
  {
    if Truthy(a) then a else b
  }

  /** `${s}` in a template literal: a missing value prints as "undefined". */
  function Interpolate(s: Option<string>): string
  {
    if s.None? then "undefined" else s.value
  }

  /** A numeric field read with `field || 0`: a missing value (and 0) gives 0. */
  function OrZero(n: Option<int>): int
  {
    if n.Some? then n.value else 0
  }
}
