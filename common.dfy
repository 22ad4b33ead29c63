/** Shared vocabulary of the FrontlineSafe model: optional values, results with the
    HTTP error kinds the services raise, JavaScript truthiness of strings and values,
    and the few string helpers several services use. */
module Common {

  datatype Option<+T> = None | Some(value: T)

  /** The exception classes the services throw, with their messages. */
  datatype Error =
    | Forbidden(message: string)      // ForbiddenException, HTTP 403
    | NotFound(message: string)       // NotFoundException, HTTP 404
    | BadRequest(message: string)     // BadRequestException, HTTP 400
    | Unauthorized(message: string)   // UnauthorizedException, HTTP 401
    | Conflict(message: string)       // a unique-constraint violation raised by the database
    | Internal(message: string)       // any other failure of the database, such as an aborted transaction

  /** The message of the tenant checks' ForbiddenException. */
  const AccessDenied := "Access denied"

  datatype Result<+T> = Ok(value: T) | Err(error: Error)

  /** Identifier of a server-side row. The database generates these; the model draws them
      from a per-table counter, which makes every new id fresh. */
  type Id = nat

  /** Milliseconds in a day: `24 * 60 * 60 * 1000` in the source. */
  const DayMs: int := 86_400_000

  /** A JSON-like value as carried in request bodies. Numbers are modelled as integers. */
  datatype Value =
    | Str(s: string)
    | Num(n: int)
    | Bool(b: bool)
    | Null
    | Undefined
    | List(items: seq<Value>)

  /** `findFirst`/`findUnique` over a table: the first row that matches, if any. */
  function First<T(==)>(s: seq<T>, p: T -> bool): (r: Option<T>)
    ensures r.Some? ==> r.value in s && p(r.value)
    ensures r.None? <==> forall i :: 0 <= i < |s| ==> !p(s[i])
  {
    if s == [] then None
    else if p(s[0]) then Some(s[0])
    else First(s[1..], p)
  }

  /** JavaScript truthiness: "", 0, false, null and undefined are falsy; arrays are truthy. */
  predicate Truthy(v: Value) {
    match v
    case Str(s) => s != ""
    case Num(n) => n != 0
    case Bool(b) => b
    case Null => false
    case Undefined => false
    case List(_) => true
  }

  /** Truthiness of an optional string (`undefined` or ""). */
  predicate Given(s: Option<string>) {
    s.Some? && s.value != ""
  }

  /** JavaScript's `s || fallback` on an optional string. */
  function OrElse(s: Option<string>, fallback: string): (r: string)
    ensures Given(s) ==> r == s.value
    ensures !Given(s) ==> r == fallback
  {
    if Given(s) then s.value else fallback
  }

  /** Lower-case of one character; only A-Z change. */
  function LowerChar(c: char): (r: char)
    ensures 'A' <= c <= 'Z' ==> r as int == c as int + 32
    ensures !('A' <= c <= 'Z') ==> r == c
  {
    if 'A' <= c <= 'Z' then (c as int + 32) as char else c
  }

  function Lower(s: string): (r: string)
    ensures |r| == |s|
    ensures forall i :: 0 <= i < |s| ==> r[i] == LowerChar(s[i])
  {
    if s == [] then [] else [LowerChar(s[0])] + Lower(s[1..])
  }

  /** `s.includes(p)` */
  predicate Contains(s: string, p: string)
    decreases |s|
  {
    |p| <= |s| && (s[..|p|] == p || Contains(s[1..], p))
  }

  /** A non-empty sequence is its front followed by its last element. */
  lemma FrontAndLast<T>(s: seq<T>)
    requires s != []
    ensures s[..|s| - 1] + [s[|s| - 1]] == s
  {
  }
}
