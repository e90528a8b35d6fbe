/**
 * The older authorization gate (src/middleware/auth.go): it reads the
 * `Auth-token` cookie, not `accessToken`, and never looks at the
 * validation error, so a token that does not validate aborts the handler
 * instead of being refused.
 */
module MiddlewareAuth {
  import opened Errors
  import opened Http
  import opened Tokens

  const AuthCookie := "Auth-token"
  const UserIdHeader := "userId"

  /**
   * `Authorize`: without the cookie, a 401 carrying the cookie error; with
   * a token whose data holds a string `userId`, the handler runs with that
   * id added to the header; in every other case (an invalid token
   * included) a type assertion panics.
   */
  function Gate(cookies: seq<Cookie>, validate: string -> Validation): (h: Handled)
    ensures var c := CookieNamed(cookies, AuthCookie);
      && (c.None? <==> h == Replied(JsonError(NoCookie, StatusUnauthorized), None))
      && (h.Forwarded? <==> c.Some? && validate(c.value.value).Valid? && Field(validate(c.value.value).payload, UserIdHeader).Some?)
      && (h.Forwarded? ==> h.added == Field(validate(c.value.value).payload, UserIdHeader))
      && (c.Some? && validate(c.value.value).Invalid? ==> h == Panicked)
      && (h == Panicked <==> c.Some? && (validate(c.value.value).Invalid? || Field(validate(c.value.value).payload, UserIdHeader).None?))
    ensures h.Replied? ==> CookieNamed(cookies, AuthCookie).None?
  {
    match CookieNamed(cookies, AuthCookie)
    case None => Replied(JsonError(NoCookie, StatusUnauthorized), None)
    case Some(jwt) =>
      var result := validate(jwt.value);
      var payload := if result.Valid? then result.payload else NotObject;
      match Field(payload, UserIdHeader)
      case None => Panicked
      case Some(userId) => Forwarded(Some(userId))
  }

  /** The handler `Authorize` wraps around `handler`, run on one request. */
  method Authorize(handler: Handler, w: ResponseWriter, r: Request, validate: string -> Validation) returns (h: Handled)
    modifies handler, w, r
    ensures h == Gate(r.cookies, validate)
    ensures Applied(h, UserIdHeader, old(r.header), r.header, old(handler.served), handler.served,
                    old(w.replies), w.replies, old(w.cookies), w.cookies)
  {
    var jwt := CookieNamed(r.cookies, AuthCookie);
    if jwt.None? {
      w.Send(JsonError(NoCookie, StatusUnauthorized));
      return Replied(JsonError(NoCookie, StatusUnauthorized), None);
    }
    var result := validate(jwt.value.value);
    // `Validate` returns a nil payload with its error, which the assertion below rejects.
    var payload := if result.Valid? then result.payload else NotObject;
    var userId := Field(payload, UserIdHeader);
    if userId.None? {
      return Panicked;
    }
    r.AddHeader(UserIdHeader, userId.value);
    handler.ServeHTTP(w, r);
    return Forwarded(Some(userId.value));
  }

  /** An `accessToken` cookie alone does not get through the gate. */
  lemma AccessCookieIsNotEnough(value: string, validate: string -> Validation)
    ensures Gate([Cookie("accessToken", value, "/", 0, true, true)], validate) ==
      Replied(JsonError(NoCookie, StatusUnauthorized), None)
  {
    assert "accessToken" != AuthCookie;
  }
}
