/**
 * JavaScript value conventions used throughout the model.
 *
 * A JSON string field that the code reads with optional chaining is an
 * `Option<string>`: `None` stands for `undefined` or `null`, `Some(s)` for a
 * string.  The operators the code uses on such fields are written out here:
 * truthiness (`if (x)`), `a || b`, `a ?? b` and `a || null`.
 */
module Js {

  datatype Option<+T> = None | Some(value: T)

  /** A value or the error an `async` function would have thrown. */
  datatype Result<+T, +E> = Success(value: T) | Failure(error: E)

  /** JavaScript truthiness of a string field: present and not the empty string. */
  predicate Truthy(f: Option<string>)
  {
    f.Some? && f.value != ""
  }

  /** `a || b` on string fields. */
  function Or(a: Option<string>, b: Option<string>): Option<string>
  {
    if Truthy(a) then a else b
  }

  /** `a ?? b`: only `undefined` and `null` fall through, the empty string does not. */
  function Coalesce(a: Option<string>, b: Option<string>): Option<string>
  {
    if a.Some? then a else b
  }

  /** `a || null`: every falsy value becomes `null`. */
  function OrNull(a: Option<string>): Option<string>
  {
    if Truthy(a) then a else None
  }

  /** `s.includes(part)` */
  ghost predicate Contains(s: string, part: string)
  {
    exists i :: 0 <= i <= |s| && part <= s[i..]
  }
}
