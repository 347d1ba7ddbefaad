/** Optional values and fallible results, shared by every module of the model. */
module Wrappers {

  /** A value that may be absent: JavaScript's `undefined` is `None`. */
  datatype Option<+T> = None | Some(value: T)

  /** The outcome of a call that can throw: `Failure` carries the error message. */
  datatype Result<+T> = Success(value: T) | Failure(error: string)

  /** JavaScript's `a ?? d`: the fallback is used only when the value is absent (a present 0 is kept). */
  function OrElse<T>(o: Option<T>, default: T): (r: T)
    ensures o.Some? ==> r == o.value
    ensures o.None? ==> r == default
  {
    match o
    case Some(v) => v
    case None => default
  }

  /** Truthiness of an optional string: absent and the empty string are both falsy. */
  predicate Truthy(o: Option<string>)
  {
    o.Some? && o.value != ""
  }

  /** JavaScript's `s || d` on an optional string: falsy values (absent or "") take the fallback. */
  function OrIfFalsy(o: Option<string>, default: string): (r: string)
    ensures Truthy(o) ==> r == o.value
    ensures !Truthy(o) ==> r == default
  {
    if Truthy(o) then o.value else default
  }

  function Min(a: real, b: real): real { if a <= b then a else b }

  function Max(a: real, b: real): real { if a >= b then a else b }
}
