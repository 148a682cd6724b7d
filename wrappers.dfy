/** Optional values, and results that carry either a value or the typed
    exception the services throw (NestJS HTTP exceptions, library errors). */
module Wrappers {

  datatype Option<+T> = None | Some(value: T) {
    function GetOr(default: T): T {
      match this
      case Some(v) => v
      case None => default
    }
  }

  /** The exception classes the core throws. `Internal` stands for a plain
      `Error` (an HTTP 500 once it reaches the exception filter). */
  datatype ErrorKind = BadRequest | Unauthorized | Forbidden | NotFound | Conflict | Internal

  datatype Failure = Failure(kind: ErrorKind, message: string)

  datatype Result<+T> = Ok(value: T) | Err(error: Failure) {
    predicate IsFailure() { Err? }

    function PropagateFailure<U>(): Result<U>
      requires Err?
    {
      Err(error)
    }

    function Extract(): T
      requires Ok?
    {
      value
    }
  }

  /** The outcome of the request-body validation pipe: the transformed body,
      or the messages of every constraint it broke (a 400 response). */
  datatype Validation<+T> = Accepted(value: T) | Rejected(messages: set<string>)

  /** The message of a constraint that is broken, or nothing. */
  function MessageIf(broken: bool, message: string): (r: set<string>)
    ensures r == {} <==> !broken
    ensures broken ==> message in r
  {
    if broken then {message} else {}
  }

  /** JavaScript truthiness of an optional string: `null`, `undefined` and `''` are falsy. */
  predicate Truthy(s: Option<string>) {
    s.Some? && s.value != ""
  }

  /** `x || undefined` for an optional string. */
  function OrUndefined(s: Option<string>): (r: Option<string>)
    ensures r.Some? <==> Truthy(s)
    ensures r.Some? ==> r == s
  {
    if Truthy(s) then s else None
  }

  /** `a || b` for optional strings. */
  function OrElse(a: Option<string>, b: Option<string>): (r: Option<string>)
    ensures Truthy(a) ==> r == a
    ensures !Truthy(a) ==> r == b
  {
    if Truthy(a) then a else b
  }
}
