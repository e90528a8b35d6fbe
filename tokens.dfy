/**
 * Token validation as the middleware sees it (src/middleware/jwt_utils.go):
 * signature and expiry checks are outside the model; what remains is the
 * token's `data` claim or the error text, and the type assertions the
 * callers apply to that claim.
 */
module Tokens {
  import opened Errors

  /** The `data` claim of a token: the members that are strings, or anything that is not a JSON object. */
  datatype Payload = Object(strings: map<string, string>) | NotObject

  /** `Validate`: the `data` claim, or the error text, which starts with `validate: `. */
  datatype Validation = Valid(payload: Payload) | Invalid(message: string)

  /** The error text the callers single out. */
  const TokenExpired := "validate: Token is expired"

  predicate Expired(v: Validation) {
    v.Invalid? && v.message == TokenExpired
  }

  /** `payload.(map[string]interface{})[name].(string)`: none where either assertion panics. */
  function Field(p: Payload, name: string): (r: Option<string>)
    ensures r.Some? <==> p.Object? && name in p.strings
    ensures r.Some? ==> r.value == p.strings[name]
  {
    if p.Object? && name in p.strings then Some(p.strings[name]) else None
  }
}
