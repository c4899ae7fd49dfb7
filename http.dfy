/** Shared vocabulary for the console's HTTP handling: optional values, the
    outcome of a `fetch`, the parsed-or-not JSON body of a reply, JavaScript
    truthiness of an optional string, and the "parse or fall back" combinator
    that every error path of the console uses. */
module Http {

  datatype Option<T> = None | Some(value: T)

  /** The settled value of a promise whose rejection is always an `Error`:
      `Ok` carries the resolved value, `Err` the error's `message`. */
  datatype Result<T> = Ok(value: T) | Err(message: string)

  /** What `await response.json()` produces. A parsed body keeps its payload
      (opaque here) and the view of its string-valued top-level properties,
      which is all the error paths ever read; a non-object payload has no
      properties. A body that is not JSON makes `json()` reject with a
      `SyntaxError` whose message is `reason`. */
  datatype Body<P> = Unparsable(reason: string) | Parsed(value: P, fields: map<string, string>)

  /** What a `fetch` settles to: a transport failure (the promise rejects
      with a `TypeError` whose message is `reason`) or a reply. */
  datatype HttpOutcome<P> =
    | NetworkError(reason: string)
    | Reply(status: int, statusText: string, body: Body<P>)

  /** A thrown value as seen by a `catch (err)` clause. */
  datatype Thrown = ErrorInstance(message: string) | NonError

  /** `response.ok`: the status lies in 200..299. */
  predicate IsOk(status: int) {
    200 <= status <= 299
  }

  /** JavaScript truthiness of a value that is either `undefined`/`null` or a
      string: only a present, non-empty string is truthy. */
  predicate Truthy(s: Option<string>) {
    s.Some? && s.value != ""
  }

  /** Reading property `key` of a parsed object: `undefined` when absent. */
  function Get(fields: map<string, string>, key: string): (v: Option<string>)
    ensures v.Some? <==> key in fields
    ensures v.Some? ==> v.value == fields[key]
  {
    if key in fields then Some(fields[key]) else None
  }

  /** `a || b` where `a` may be undefined and `b` is a string literal. */
  function Or(a: Option<string>, b: string): (r: string)
    ensures Truthy(a) ==> r == a.value
    ensures !Truthy(a) ==> r == b
    ensures r == "" ==> b == ""
  {
    if Truthy(a) then a.value else b
  }

  /** `a || b` where both operands may be undefined. */
  function OrElse(a: Option<string>, b: Option<string>): (r: Option<string>)
    ensures Truthy(r) <==> Truthy(a) || Truthy(b)
    ensures Truthy(a) ==> r == a
    ensures !Truthy(a) ==> r == b
  {
    if Truthy(a) then a else b
  }

  /** The fallible parse with a default: `await response.json().catch(() =>
      fallback)`. A body that parses yields its own properties; one that does
      not yields the fallback object and its parse error is discarded. */
  function ParseOr<P>(body: Body<P>, fallback: map<string, string>): (fields: map<string, string>)
    ensures body.Parsed? ==> fields == body.fields
    ensures body.Unparsable? ==> fields == fallback
  {
    match body
    case Parsed(_, f) => f
    case Unparsable(_) => fallback
  }

  /** `err instanceof Error ? err.message : fallback` in a `catch` clause. */
  function CaughtMessage(err: Thrown, fallback: string): (m: string)
    ensures err.ErrorInstance? ==> m == err.message
    ensures err.NonError? ==> m == fallback
  {
    match err
    case ErrorInstance(msg) => msg
    case NonError => fallback
  }

  /** `s` ends with `suffix`. */
  predicate EndsWith(s: string, suffix: string) {
    |suffix| <= |s| && s[|s| - |suffix|..] == suffix
  }

  /** `s` begins with `prefix` (JavaScript's `startsWith`). */
  predicate StartsWith(s: string, prefix: string) {
    prefix <= s
  }

  lemma EndsWithAppend(a: string, b: string)
    ensures EndsWith(a + b, b)
  {
    assert (a + b)[|a|..] == b;
  }
}
