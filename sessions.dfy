/**
 * The session-key scheme shared by the writer (`CreateSession` in
 * src/users/service.go) and the reader (`GetSession` in
 * src/middleware/service.go): both build `sessions:<userId>:<sessionId>`,
 * so what one writes the other finds, and as long as user ids hold no
 * colon, no two sessions share a key.
 */
module Sessions {
  import opened Errors
  import opened Text
  import opened KeyValue
  import opened UsersModel
  import UsersService
  import MiddlewareService

  /** The writer and the reader build the same key for a pair. */
  lemma KeysAgree(userId: string, sessionId: string)
    ensures UsersService.SessionKey(userId, sessionId) == MiddlewareService.SessionKey(userId, sessionId)
  {
  }

  /** In `a + ":" + x` with no colon in `a`, the first colon is the one after `a`. */
  lemma FirstColon(a: string, x: string)
    requires ':' !in a
    ensures IndexOf(a + ":" + x, ':') == Some(|a|)
  {
    var l := a + ":" + x;
    assert l[|a|] == ':';
    var k := IndexOf(l, ':').value;
    assert forall i :: 0 <= i < |a| ==> l[i] == a[i];
    assert forall i :: 0 <= i < k ==> l[..k][i] == l[i];
  }

  /** Splitting at the first colon: a prefix without colons is recovered, and so is the rest. */
  lemma ColonSplit(a: string, x: string, b: string, y: string)
    requires ':' !in a && ':' !in b
    requires a + ":" + x == b + ":" + y
    ensures a == b && x == y
  {
    FirstColon(a, x);
    FirstColon(b, y);
    assert (a + ":" + x)[..|a|] == a && (a + ":" + x)[|a| + 1..] == x;
    assert (b + ":" + y)[..|b|] == b && (b + ":" + y)[|b| + 1..] == y;
  }

  /** Distinct sessions of users whose ids hold no colon have distinct keys. */
  lemma SessionKeyInjective(u1: string, s1: string, u2: string, s2: string)
    requires ':' !in u1 && ':' !in u2
    requires MiddlewareService.SessionKey(u1, s1) == MiddlewareService.SessionKey(u2, s2)
    ensures u1 == u2 && s1 == s2
  {
    var k1 := MiddlewareService.SessionKey(u1, s1);
    var k2 := MiddlewareService.SessionKey(u2, s2);
    assert k1[9..] == u1 + ":" + s1;
    assert k2[9..] == u2 + ":" + s2;
    ColonSplit(u1, s1, u2, s2);
  }

  /** User ids are decimal numbers, which hold no colon. */
  lemma DecimalIdHasNoColon(n: int)
    ensures ':' !in FormatInt(n)
  {
  }

  /** Two sessions of accounts with decimal ids share a key only when they are the same session. */
  lemma DecimalSessionKeysDistinct(n1: int, s1: string, n2: int, s2: string)
    requires InInt64(n1) && InInt64(n2)
    requires n1 != n2 || s1 != s2
    ensures UsersService.SessionKey(FormatInt(n1), s1) != UsersService.SessionKey(FormatInt(n2), s2)
  {
    AtoiFormatInt(n1);
    AtoiFormatInt(n2);
    if UsersService.SessionKey(FormatInt(n1), s1) == UsersService.SessionKey(FormatInt(n2), s2) {
      SessionKeyInjective(FormatInt(n1), s1, FormatInt(n2), s2);
    }
  }

  /** The record `CreateSession` writes is the one the middleware's `GetSession` finds. */
  lemma CreatedSessionIsFound(entries: map<string, Entry>, decode: string -> Option<UserClaims>,
                              userId: string, sessionId: string, value: string)
    ensures var written := entries[UsersService.SessionKey(userId, sessionId) := Entry(value, UsersService.SessionTtl)];
      MiddlewareService.GetSession(written, Nil, decode, userId, sessionId) ==
        Ret(Some(MiddlewareService.Decoded(decode, value)), Nil)
  {
  }

  /** Writing one session leaves what the middleware finds for every other session as it was. */
  lemma OtherSessionsUnchanged(entries: map<string, Entry>, fault: Error, decode: string -> Option<UserClaims>,
                               userId: string, sessionId: string, e: Entry, otherUser: string, otherSession: string)
    requires ':' !in userId && ':' !in otherUser
    requires userId != otherUser || sessionId != otherSession
    ensures var written := entries[UsersService.SessionKey(userId, sessionId) := e];
      MiddlewareService.GetSession(written, fault, decode, otherUser, otherSession) ==
        MiddlewareService.GetSession(entries, fault, decode, otherUser, otherSession)
  {
    if UsersService.SessionKey(userId, sessionId) == MiddlewareService.SessionKey(otherUser, otherSession) {
      SessionKeyInjective(userId, sessionId, otherUser, otherSession);
    }
  }
}
