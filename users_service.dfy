/**
 * The account service (src/users/service.go): the user insert, the two
 * login lookups and the session record written at sign-up and sign-in.
 * The SQL store is a function from the statement sent to its result; the
 * key-value store is a `KeyValue.Store` the service writes in place.
 */
module UsersService {
  import opened Errors
  import opened Text
  import opened Sql
  import opened KeyValue
  import opened UsersModel

  // ----- InsertUser -----

  const InsertUserInto := "INSERT INTO users(" + "email, password) VALUES ("
  const InsertUserSql := Template([InsertUserInto, ", ", ")"])

  lemma InsertUserIntoFree() ensures NoPlaceholder(InsertUserInto) { }

  function InsertUserQuery(u: User): (q: Query)
    ensures Aligned(q) && q.text == InsertUserSql
    ensures q.args == [StrArg(u.email), StrArg(u.password)]
  {
    InsertUserIntoFree();
    TemplatePlaceholders([InsertUserInto, ", ", ")"]);
    Query(InsertUserSql, [StrArg(u.email), StrArg(u.password)])
  }

  /**
   * `InsertUser`: the new row's id in decimal, which `strconv.Atoi` reads
   * back as the same number; `("", err)` when the insert or the id fails.
   */
  function InsertUser(u: User, exec: Query -> ExecResult): (r: Ret<string>)
    ensures var res := exec(InsertUserQuery(u));
      (r.err == Nil <==> res.Executed? && res.lastInsertId.err == Nil) &&
      (r.err != Nil ==> r.value == "" && r.err == InsertedId(res).err) &&
      (r.err == Nil ==> r.value != [] && forall i :: 0 <= i < |r.value| ==> IsDigit(r.value[i]) || (i == 0 && r.value[i] == '-')) &&
      (r.err == Nil && InInt64(res.lastInsertId.value) ==> Atoi(r.value) == Some(res.lastInsertId.value))
  {
    var id := InsertedId(exec(InsertUserQuery(u)));
    if id.err != Nil then Ret("", id.err)
    else
      FormattedIdReadsBack(id.value);
      Ret(FormatInt(id.value), Nil)
  }

  lemma FormattedIdReadsBack(n: int)
    ensures InInt64(n) ==> Atoi(FormatInt(n)) == Some(n)
  {
    if InInt64(n) {
      AtoiFormatInt(n);
    }
  }

  // ----- the login lookups -----

  const PasswordSelect := "SELECT password FROM users" + " WHERE email = "
  const PasswordSql := Template([PasswordSelect, ";"])

  lemma PasswordSelectFree() ensures NoPlaceholder(PasswordSelect) { }

  function PasswordQuery(email: string): (q: Query)
    ensures Aligned(q) && q.args == [StrArg(email)]
  {
    PasswordSelectFree();
    TemplatePlaceholders([PasswordSelect, ";"]);
    Query(PasswordSql, [StrArg(email)])
  }

  /**
   * `GetPasswordFromEmail`: the stored password hash; a failed lookup
   * (an unknown email included) is swallowed into `("", nil)`.
   */
  function GetPasswordFromEmail(email: string, getPassword: Query -> Ret<string>): (r: Ret<string>)
    ensures r.err == Nil
    ensures var res := getPassword(PasswordQuery(email));
      r.value == if res.err == Nil then res.value else ""
  {
    var res := getPassword(PasswordQuery(email));
    if res.err != Nil then Ret("", Nil) else Ret(res.value, Nil)
  }

  const ClaimsSelect := "SELECT id AS userId, email " + "FROM users WHERE email = "
  const ClaimsSql := Template([ClaimsSelect, ";"])

  lemma ClaimsSelectFree() ensures NoPlaceholder(ClaimsSelect) { }

  function ClaimsQuery(email: string): (q: Query)
    ensures Aligned(q) && q.args == [StrArg(email)]
  {
    ClaimsSelectFree();
    TemplatePlaceholders([ClaimsSelect, ";"]);
    Query(ClaimsSql, [StrArg(email)])
  }

  /** `GetClaimsFromEmail`: the claims of the account, or `(nil, err)`. */
  function GetClaimsFromEmail(email: string, getDetails: Query -> Ret<Option<UserClaims>>): (r: Ret<Option<UserClaims>>)
    ensures var res := getDetails(ClaimsQuery(email));
      r.err == res.err && (r.err != Nil ==> r.value == None) && (r.err == Nil ==> r.value == res.value)
  {
    var res := getDetails(ClaimsQuery(email));
    if res.err != Nil then Ret(None, res.err) else Ret(res.value, Nil)
  }

  // ----- sessions -----

  /** The key of a user's session record. */
  function SessionKey(userId: string, sessionId: string): string {
    "sessions:" + userId + ":" + sessionId
  }

  /** A session lives 24 * 30 hours, that is 30 days. */
  const SessionTtl: Duration := 24 * 30 * Hour

  /**
   * `CreateSession`: writes the session record under its key with the
   * 30-day time-to-live and changes no other key; the store's error comes
   * back unchanged, and then nothing is written.
   */
  method CreateSession(store: Store, userId: string, sessionId: string, value: string) returns (err: Error)
    modifies store
    ensures err == old(store.fault) && store.fault == old(store.fault)
    ensures store.entries ==
      if err == Nil then old(store.entries)[SessionKey(userId, sessionId) := Entry(value, 720 * Hour)]
      else old(store.entries)
  {
    var key := SessionKey(userId, sessionId);
    var exp := SessionTtl;
    err := store.SetKey(key, value, exp);
    if err != Nil {
      return err;
    }
    return Nil;
  }

  /** `GetSession` of the account service: always the fixed key `key1`. */
  method GetSession(store: Store) returns (value: string, err: Error)
    ensures err == Nil <==> store.fault == Nil && "key1" in store.entries
    ensures err == Nil ==> value == store.entries["key1"].value
    ensures err != Nil ==> value == "" && err == if store.fault != Nil then store.fault else Fail(RedisNil)
  {
    value, err := store.GetKey("key1");
    if err != Nil {
      return "", err;
    }
  }
}
