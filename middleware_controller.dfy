/**
 * The authentication middleware (src/middleware/controller.go): `Serialize`
 * reads the access token into a `userId` header, `Authorize` lets a
 * request through only with that header, and `GetAccessToken` issues a new
 * access token from a refresh token and a stored session. Each is a
 * decision function over what the request carries, and a method that
 * performs the decided effects on the request, the response and `next`.
 */
module MiddlewareController {
  import opened Errors
  import opened Http
  import opened KeyValue
  import opened Tokens
  import opened UsersModel
  import MiddlewareService

  const AccessCookie := "accessToken"
  const RefreshCookie := "refreshToken"
  const UserIdHeader := "userId"
  const SignInUrl := "http://google.com"
  const AuthorizationRequired := "Action requires authorization"
  const AccessTokenRenewed := "Access token successfully renewed."
  /** Five minutes, in seconds. */
  const AccessTokenLifetime := 5 * 60

  // ----- Serialize -----

  /**
   * `Serialize`: without an access cookie, or with an expired token, the
   * request goes on unchanged; with a valid token it goes on carrying the
   * token's `userId`; any other validation error is a 500. No cookie is
   * ever set and the session store is never read.
   */
  function Serialized(cookies: seq<Cookie>, validate: string -> Validation): (h: Handled)
    ensures var c := CookieNamed(cookies, AccessCookie);
      && (h == Forwarded(None) <==> c.None? || Expired(validate(c.value.value)))
      && (h.Forwarded? && h.added.Some? <==>
            c.Some? && validate(c.value.value).Valid? && Field(validate(c.value.value).payload, UserIdHeader).Some?)
      && (h.Forwarded? && h.added.Some? ==> h.added == Field(validate(c.value.value).payload, UserIdHeader))
      && (h.Replied? <==> c.Some? && validate(c.value.value).Invalid? && !Expired(validate(c.value.value)))
      && (h.Replied? ==> h == Replied(JsonError(validate(c.value.value).message, StatusInternalServerError), None))
  {
    match CookieNamed(cookies, AccessCookie)
    case None => Forwarded(None)
    case Some(c) =>
      match validate(c.value)
      case Invalid(message) =>
        if message == TokenExpired then Forwarded(None)
        else Replied(JsonError(message, StatusInternalServerError), None)
      case Valid(payload) =>
        match Field(payload, UserIdHeader)
        case None => Panicked
        case Some(userId) => Forwarded(Some(userId))
  }

  /** The handler `Serialize` wraps around `next`, run on one request. */
  method Serialize(next: Handler, w: ResponseWriter, r: Request, validate: string -> Validation) returns (h: Handled)
    modifies next, w, r
    ensures h == Serialized(r.cookies, validate)
    ensures Applied(h, UserIdHeader, old(r.header), r.header, old(next.served), next.served,
                    old(w.replies), w.replies, old(w.cookies), w.cookies)
  {
    var accessCookie := CookieNamed(r.cookies, AccessCookie);
    if accessCookie.None? {
      next.ServeHTTP(w, r);
      return Forwarded(None);
    }
    var validation := validate(accessCookie.value.value);
    if validation.Invalid? {
      if validation.message == TokenExpired {
        next.ServeHTTP(w, r);
        return Forwarded(None);
      }
      w.Send(JsonError(validation.message, StatusInternalServerError));
      return Replied(JsonError(validation.message, StatusInternalServerError), None);
    }
    var userId := Field(validation.payload, UserIdHeader);
    if userId.None? {
      return Panicked;
    }
    r.AddHeader(UserIdHeader, userId.value);
    next.ServeHTTP(w, r);
    return Forwarded(Some(userId.value));
  }

  // ----- Authorize -----

  /** `Authorize`: the request goes on exactly when `Header.Get("userId")` is not empty; otherwise a 401. */
  function Authorized(header: Header): (h: Handled)
    ensures h == Forwarded(None) <==> HeaderGet(header, UserIdHeader) != ""
    ensures h != Forwarded(None) ==> h == Replied(JsonError(AuthorizationRequired, StatusUnauthorized), None)
  {
    if HeaderGet(header, UserIdHeader) == "" then Replied(JsonError(AuthorizationRequired, StatusUnauthorized), None)
    else Forwarded(None)
  }

  /** The handler `Authorize` wraps around `next`, run on one request. */
  method Authorize(next: Handler, w: ResponseWriter, r: Request) returns (h: Handled)
    modifies next, w
    ensures h == Authorized(r.header)
    ensures Applied(h, UserIdHeader, r.header, r.header, old(next.served), next.served,
                    old(w.replies), w.replies, old(w.cookies), w.cookies)
  {
    var userId := HeaderGet(r.header, UserIdHeader);
    if userId == "" {
      w.Send(JsonError(AuthorizationRequired, StatusUnauthorized));
      return Replied(JsonError(AuthorizationRequired, StatusUnauthorized), None);
    }
    next.ServeHTTP(w, r);
    return Forwarded(None);
  }

  /**
   * `Serialize` only adds to the header, so a `userId` the client sent
   * itself is the first value and the one `Authorize` reads: a request
   * with such a header and no access cookie passes both.
   */
  lemma {:induction false} ClientUserIdPasses(cookies: seq<Cookie>, header: Header, validate: string -> Validation, userId: string)
    requires Values(header, UserIdHeader) == [userId] && userId != ""
    requires Serialized(cookies, validate).Forwarded?
    ensures Authorized(HeaderAfter(Serialized(cookies, validate), header, UserIdHeader)) == Forwarded(None)
    ensures HeaderGet(HeaderAfter(Serialized(cookies, validate), header, UserIdHeader), UserIdHeader) == userId
  {
    var h := Serialized(cookies, validate);
    if h.added.Some? {
      AddKeepsFirst(header, UserIdHeader, h.added.value);
    }
  }

  // ----- GetAccessToken -----

  /**
   * `GetAccessToken`: a refresh token that is missing or expired, or whose
   * session is no longer stored, sends the client to sign in; otherwise a
   * new five-minute access token is signed for the stored claims (which
   * are not compared with the token's user) and set as a secure,
   * HTTP-only cookie on `/`. Every other error is a 500.
   */
  function Renewed(cookies: seq<Cookie>, validate: string -> Validation,
                   entries: map<string, Entry>, fault: Error, decode: string -> Option<UserClaims>,
                   sign: UserClaims -> Ret<string>, now: int): (h: Handled)
    ensures !h.Forwarded?
    ensures CookieNamed(cookies, RefreshCookie).None? ==> h == Replied(Redirect(SignInUrl, StatusFound), None)
    ensures h.Replied? && h.reply.Redirect? ==> h == Replied(Redirect(SignInUrl, StatusFound), None)
    ensures h.Replied? && h.reply.JsonError? ==> h.reply.status == StatusInternalServerError && h.cookie.None?
    ensures h.Replied? && h.cookie.Some? <==> h.Replied? && h.reply == JsonResponse(AccessTokenRenewed, StatusOK)
    ensures h.Replied? && h.cookie.Some? ==>
      var c := h.cookie.value;
      c.name == AccessCookie && c.path == "/" && c.expires == now + AccessTokenLifetime && c.secure && c.httpOnly
    // A refresh token that does not validate: expiry redirects, anything else is a 500.
    ensures var c := CookieNamed(cookies, RefreshCookie);
      c.Some? && Expired(validate(c.value.value)) ==> h == Replied(Redirect(SignInUrl, StatusFound), None)
    ensures var c := CookieNamed(cookies, RefreshCookie);
      c.Some? && validate(c.value.value).Invalid? && !Expired(validate(c.value.value)) ==>
        h == Replied(JsonError(validate(c.value.value).message, StatusInternalServerError), None)
    // A valid token panics exactly when its data lacks a string `sessionId` or `userId`.
    ensures var c := CookieNamed(cookies, RefreshCookie);
      c.Some? && validate(c.value.value).Valid? ==>
        var p := validate(c.value.value).payload;
        (h == Panicked <==> Field(p, "sessionId").None? || Field(p, UserIdHeader).None?)
    ensures h == Panicked ==> CookieNamed(cookies, RefreshCookie).Some? && validate(CookieNamed(cookies, RefreshCookie).value.value).Valid?
    // With both ids, the session store decides.
    ensures var c := CookieNamed(cookies, RefreshCookie);
      c.Some? && validate(c.value.value).Valid? &&
      Field(validate(c.value.value).payload, "sessionId").Some? && Field(validate(c.value.value).payload, UserIdHeader).Some? ==>
        var key := MiddlewareService.SessionKey(Field(validate(c.value.value).payload, UserIdHeader).value,
                                                Field(validate(c.value.value).payload, "sessionId").value);
        && (fault == Nil && key !in entries ==> h == Replied(Redirect(SignInUrl, StatusFound), None))
        && (fault.Fail? ==> h == Replied(if fault.message == RedisNil then Redirect(SignInUrl, StatusFound)
                                         else JsonError(fault.message, StatusInternalServerError), None))
        && (fault == Nil && key in entries ==>
              var token := sign(MiddlewareService.Decoded(decode, entries[key].value));
              h == if token.err.Fail? then Replied(JsonError(token.err.message, StatusInternalServerError), None)
                   else Replied(JsonResponse(AccessTokenRenewed, StatusOK),
                                Some(Cookie(AccessCookie, token.value, "/", now + AccessTokenLifetime, true, true))))
  {
    match CookieNamed(cookies, RefreshCookie)
    case None => Replied(Redirect(SignInUrl, StatusFound), None)
    case Some(refresh) =>
      match validate(refresh.value)
      case Invalid(message) =>
        if message == TokenExpired then Replied(Redirect(SignInUrl, StatusFound), None)
        else Replied(JsonError(message, StatusInternalServerError), None)
      case Valid(payload) =>
        match Field(payload, "sessionId")
        case None => Panicked
        case Some(sessionId) =>
          match Field(payload, UserIdHeader)
          case None => Panicked
          case Some(userId) =>
            var session := MiddlewareService.GetSession(entries, fault, decode, userId, sessionId);
            if session.err.Fail? then
              if session.err.message == RedisNil then Replied(Redirect(SignInUrl, StatusFound), None)
              else Replied(JsonError(session.err.message, StatusInternalServerError), None)
            else
              var token := sign(session.value.value);
              if token.err.Fail? then Replied(JsonError(token.err.message, StatusInternalServerError), None)
              else
                var accessCookie := Cookie(AccessCookie, token.value, "/", now + AccessTokenLifetime, true, true);
                Replied(JsonResponse(AccessTokenRenewed, StatusOK), Some(accessCookie))
  }

  /** A session that is stored under the pair the refresh token names gets a new access token when signing works. */
  lemma StoredSessionRenews(cookies: seq<Cookie>, validate: string -> Validation,
                            entries: map<string, Entry>, decode: string -> Option<UserClaims>,
                            sign: UserClaims -> Ret<string>, now: int, userId: string, sessionId: string)
    requires CookieNamed(cookies, RefreshCookie).Some?
    requires validate(CookieNamed(cookies, RefreshCookie).value.value) ==
      Valid(Object(map["sessionId" := sessionId, UserIdHeader := userId]))
    requires MiddlewareService.SessionKey(userId, sessionId) in entries
    requires sign(MiddlewareService.Decoded(decode, entries[MiddlewareService.SessionKey(userId, sessionId)].value)).err == Nil
    ensures Renewed(cookies, validate, entries, Nil, decode, sign, now).cookie.Some?
  {
  }

  /** A session that is gone from the store sends the client to sign in. */
  lemma MissingSessionRedirects(cookies: seq<Cookie>, validate: string -> Validation,
                                entries: map<string, Entry>, decode: string -> Option<UserClaims>,
                                sign: UserClaims -> Ret<string>, now: int, userId: string, sessionId: string)
    requires CookieNamed(cookies, RefreshCookie).Some?
    requires validate(CookieNamed(cookies, RefreshCookie).value.value) ==
      Valid(Object(map["sessionId" := sessionId, UserIdHeader := userId]))
    requires MiddlewareService.SessionKey(userId, sessionId) !in entries
    ensures Renewed(cookies, validate, entries, Nil, decode, sign, now) == Replied(Redirect(SignInUrl, StatusFound), None)
  {
  }

  /** The handler `GetAccessToken`; the session store is only read. */
  method GetAccessToken(w: ResponseWriter, r: Request, store: Store, validate: string -> Validation,
                        decode: string -> Option<UserClaims>, sign: UserClaims -> Ret<string>, now: int)
    returns (h: Handled)
    modifies w
    ensures h == Renewed(r.cookies, validate, store.entries, store.fault, decode, sign, now)
    ensures w.replies == old(w.replies) + (if h.Replied? then [h.reply] else [])
    ensures w.cookies == old(w.cookies) + (if h.Replied? && h.cookie.Some? then [h.cookie.value] else [])
  {
    var refreshCookie := CookieNamed(r.cookies, RefreshCookie);
    if refreshCookie.None? {
      w.Send(Redirect(SignInUrl, StatusFound));
      return Replied(Redirect(SignInUrl, StatusFound), None);
    }
    var validation := validate(refreshCookie.value.value);
    if validation.Invalid? {
      if validation.message == TokenExpired {
        w.Send(Redirect(SignInUrl, StatusFound));
        return Replied(Redirect(SignInUrl, StatusFound), None);
      }
      w.Send(JsonError(validation.message, StatusInternalServerError));
      return Replied(JsonError(validation.message, StatusInternalServerError), None);
    }
    var sessionId := Field(validation.payload, "sessionId");
    if sessionId.None? {
      return Panicked;
    }
    var userId := Field(validation.payload, UserIdHeader);
    if userId.None? {
      return Panicked;
    }
    var claims := MiddlewareService.GetSession(store.entries, store.fault, decode, userId.value, sessionId.value);
    if claims.err.Fail? {
      if claims.err.message == RedisNil {
        w.Send(Redirect(SignInUrl, StatusFound));
        return Replied(Redirect(SignInUrl, StatusFound), None);
      }
      w.Send(JsonError(claims.err.message, StatusInternalServerError));
      return Replied(JsonError(claims.err.message, StatusInternalServerError), None);
    }
    var accessToken := sign(claims.value.value);
    if accessToken.err.Fail? {
      w.Send(JsonError(accessToken.err.message, StatusInternalServerError));
      return Replied(JsonError(accessToken.err.message, StatusInternalServerError), None);
    }
    var accessCookie := Cookie(AccessCookie, accessToken.value, "/", now + AccessTokenLifetime, true, true);
    w.SetCookie(accessCookie);
    w.Send(JsonResponse(AccessTokenRenewed, StatusOK));
    return Replied(JsonResponse(AccessTokenRenewed, StatusOK), Some(accessCookie));
  }
}
