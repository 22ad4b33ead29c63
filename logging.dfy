/** The request-logging interceptor: the correlation id a request is logged under, and the
    copy of the request body that is logged, with credentials redacted. */
module Logging {
  import opened Common

  /** A parsed request body: none, or a JSON object. */
  datatype Body = NoBody | Object(fields: map<string, Value>)

  const Redacted: Value := Str("[REDACTED]")

  /** `if (sanitized[key]) sanitized[key] = '[REDACTED]'` */
  function Redact(fields: map<string, Value>, key: string): (r: map<string, Value>)
    ensures r.Keys == fields.Keys
    ensures key in fields && Truthy(fields[key]) ==> r[key] == Redacted
    ensures forall k :: k in fields && (k != key || !Truthy(fields[k])) ==> r[k] == fields[k]
  {
    if key in fields && Truthy(fields[key]) then fields[key := Redacted] else fields
  }

  /** `sanitizeBody`: a missing body is returned as it is; an object is copied with a truthy
      `password` and a truthy `token` replaced by `[REDACTED]`, every other field kept. */
  function SanitizeBody(body: Body): (r: Body)
    ensures body.NoBody? ==> r == body
    ensures body.Object? ==> r.Object? && r.fields.Keys == body.fields.Keys
    ensures body.Object? ==> forall k :: k in body.fields && k != "password" && k != "token" ==>
              r.fields[k] == body.fields[k]
    ensures body.Object? ==> forall k :: k in body.fields && (k == "password" || k == "token") ==>
              r.fields[k] == (if Truthy(body.fields[k]) then Redacted else body.fields[k])
  {
    match body
    case NoBody => NoBody
    case Object(f) => Object(Redact(Redact(f, "password"), "token"))
  }

  /** A logged body never shows a truthy password or token. */
  lemma NoSecretLogged(body: Body, k: string)
    requires body.Object? && k in body.fields && (k == "password" || k == "token")
    ensures var r := SanitizeBody(body);
            r.fields[k] == Redacted || !Truthy(r.fields[k])
  {
  }

  /** Sanitising an already sanitised body changes nothing. */
  lemma SanitizeIsIdempotent(body: Body)
    ensures SanitizeBody(SanitizeBody(body)) == SanitizeBody(body)
  {
    if body.Object? {
      var once := SanitizeBody(body).fields;
      var twice := SanitizeBody(SanitizeBody(body)).fields;
      assert twice.Keys == once.Keys;
      forall k | k in once ensures twice[k] == once[k] {
        if k == "password" || k == "token" {
          assert Truthy(Redacted);
        }
      }
    }
  }

  /** `request.headers['x-correlation-id'] || uuidv4()`, with the fresh uuid a parameter. */
  function CorrelationId(headers: map<string, string>, generated: string): (id: string)
    ensures "x-correlation-id" in headers && headers["x-correlation-id"] != "" ==> id == headers["x-correlation-id"]
    ensures !("x-correlation-id" in headers && headers["x-correlation-id"] != "") ==> id == generated
  {
    OrElse(if "x-correlation-id" in headers then Some(headers["x-correlation-id"]) else None, generated)
  }
}
