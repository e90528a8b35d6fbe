/**
 * The session lookup of the authentication middleware
 * (src/middleware/service.go). The store is read at one instant, given by
 * its entries and its connection failure; JSON decoding of the stored
 * record is a parameter.
 */
module MiddlewareService {
  import opened Errors
  import opened KeyValue
  import opened UsersModel

  /** The key the middleware reads a session from. */
  function SessionKey(userId: string, sessionId: string): string {
    "sessions:" + userId + ":" + sessionId
  }

  /** The claims with every field empty, as `&UserClaims{}` makes them. */
  const NoClaims := UserClaims("", "", "")

  /**
   * What `json.Unmarshal` leaves in a fresh `UserClaims`: `decode` gives
   * the claims for a well-formed record and `None` for text that is not
   * JSON, which leaves the fresh claims as they were.
   */
  function Decoded(decode: string -> Option<UserClaims>, s: string): (c: UserClaims)
    ensures decode(s).None? ==> c == NoClaims
    ensures decode(s).Some? ==> c == decode(s).value
  {
    match decode(s)
    case None => NoClaims
    case Some(claims) => claims
  }

  /**
   * `GetSession`: reads the one key of the pair. A store error comes back
   * as `(nil, err)`; otherwise the decoded claims with a nil error, even
   * when the record did not decode.
   */
  function GetSession(entries: map<string, Entry>, fault: Error, decode: string -> Option<UserClaims>,
                      userId: string, sessionId: string): (r: Ret<Option<UserClaims>>)
    ensures var key := SessionKey(userId, sessionId);
      (r.err == Nil <==> fault == Nil && key in entries) &&
      (r.err != Nil ==> r.value == None && r.err == Lookup(entries, fault, key).err) &&
      (r.err == Nil ==> r.value == Some(Decoded(decode, entries[key].value)))
  {
    var result := Lookup(entries, fault, SessionKey(userId, sessionId));
    var claims := Decoded(decode, result.value);
    if result.err != Nil then Ret(None, result.err) else Ret(Some(claims), Nil)
  }

  /** A malformed record is not an error: the session is found with empty claims. */
  lemma MalformedRecordGivesEmptyClaims(entries: map<string, Entry>, decode: string -> Option<UserClaims>,
                                        userId: string, sessionId: string)
    requires SessionKey(userId, sessionId) in entries
    requires decode(entries[SessionKey(userId, sessionId)].value).None?
    ensures GetSession(entries, Nil, decode, userId, sessionId) == Ret(Some(NoClaims), Nil)
  {
  }
}
