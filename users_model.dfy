/**
 * Accounts: the registration record, its validator, the email pattern and
 * the identity claims made at sign-up (src/users/model.go).
 */
module UsersModel {
  import opened Errors
  import opened Text

  datatype User = User(email: string, password: string, createdAt: int)

  /** The identity written to a session record and into tokens. */
  datatype UserClaims = UserClaims(email: string, userId: string, sessionUuid: string)

  const CreatedAtNull := "CreatedAt field can't be a null value."
  const InvalidEmail := "Please enter a valid email."

  /** `NewUser`: only the creation time (the clock is passed in) is set. */
  function NewUser(now: int): (u: User)
    ensures u.createdAt == now && u.email == "" && u.password == ""
  {
    User("", "", now)
  }

  // ----- the pattern ^[a-z0-9._%+\-]+@[a-z0-9.\-]+\.[a-z]{2,4}$ -----

  predicate IsLower(c: char) {
    'a' <= c <= 'z'
  }

  /** `[a-z0-9._%+\-]`, the characters allowed before the `@`. */
  predicate IsLocalChar(c: char) {
    IsLower(c) || IsDigit(c) || c == '.' || c == '_' || c == '%' || c == '+' || c == '-'
  }

  /** `[a-z0-9.\-]`, the characters allowed in the domain before its last dot. */
  predicate IsDomainChar(c: char) {
    IsLower(c) || IsDigit(c) || c == '.' || c == '-'
  }

  predicate AllLocal(s: string) {
    forall i :: 0 <= i < |s| ==> IsLocalChar(s[i])
  }

  predicate AllDomain(s: string) {
    forall i :: 0 <= i < |s| ==> IsDomainChar(s[i])
  }

  predicate AllLower(s: string) {
    forall i :: 0 <= i < |s| ==> IsLower(s[i])
  }

  /**
   * The language of the pattern, as Go's RE2 reads it without flags: the
   * whole string is L@D.T with L and D non-empty over their classes and T of
   * two to four lower-case letters (`$` matches only at the very end).
   */
  ghost predicate MatchesEmailPattern(e: string) {
    exists at: nat, dot: nat :: SplitsAsEmail(e, at, dot)
  }

  /** `e` is L@D.T with its `@` at `at` and the dot before T at `dot`. */
  predicate SplitsAsEmail(e: string, at: nat, dot: nat) {
    && 0 < at && at + 1 < dot && dot + 3 <= |e| <= dot + 5
    && e[at] == '@' && e[dot] == '.'
    && AllLocal(e[..at]) && AllDomain(e[at + 1..dot]) && AllLower(e[dot + 1..])
  }

  /**
   * `isEmailValid`, as a hand-written recognizer: the `@` must be the first
   * one, the top-level label follows the last dot after it.
   */
  predicate IsEmailValid(e: string) {
    match IndexOf(e, '@')
    case None => false
    case Some(at) =>
      var domain := e[at + 1..];
      match LastIndexOf(domain, '.')
      case None => false
      case Some(dot) =>
        && 0 < at && AllLocal(e[..at])
        && 0 < dot && AllDomain(domain[..dot])
        && 2 <= |domain| - dot - 1 <= 4 && AllLower(domain[dot + 1..])
  }

  /** Every string the recognizer accepts is matched by the pattern. */
  lemma EmailRecognizerSound(e: string)
    requires IsEmailValid(e)
    ensures MatchesEmailPattern(e)
  {
    var at := IndexOf(e, '@').value;
    var domain := e[at + 1..];
    var dot := LastIndexOf(domain, '.').value;
    var d := at + 1 + dot;
    assert e[at + 1..d] == domain[..dot];
    assert e[d + 1..] == domain[dot + 1..];
    assert e[d] == '.';
    assert SplitsAsEmail(e, at, d);
  }

  /** An `@` with only local characters before it is the first `@`. */
  lemma FirstAt(e: string, at: nat)
    requires at < |e| && e[at] == '@' && AllLocal(e[..at])
    ensures IndexOf(e, '@') == Some(at)
  {
    var first := IndexOf(e, '@');
    assert forall k :: 0 <= k < at ==> e[k] == e[..at][k];
  }

  /** A dot with only letters after it is the last dot. */
  lemma LastDot(domain: string, dot: nat)
    requires dot < |domain| && domain[dot] == '.' && AllLower(domain[dot + 1..])
    ensures LastIndexOf(domain, '.') == Some(dot)
  {
    var last := LastIndexOf(domain, '.');
    assert forall k :: dot < k < |domain| ==> domain[k] == domain[dot + 1..][k - dot - 1];
  }

  /** Every string the pattern matches is accepted by the recognizer. */
  lemma EmailRecognizerComplete(e: string)
    requires MatchesEmailPattern(e)
    ensures IsEmailValid(e)
  {
    var at: nat, d: nat :| SplitsAsEmail(e, at, d);
    SplitAccepted(e, at, d);
  }

  /** A string split as L@D.T at `at` and `d` is accepted. */
  lemma SplitAccepted(e: string, at: nat, d: nat)
    requires SplitsAsEmail(e, at, d)
    ensures IsEmailValid(e)
  {
    FirstAt(e, at);
    var domain := e[at + 1..];
    var dot := d - at - 1;
    assert domain[..dot] == e[at + 1..d];
    assert domain[dot + 1..] == e[d + 1..];
    LastDot(domain, dot);
  }

  /** The recognizer accepts exactly the strings the pattern matches. */
  lemma EmailRecognizerMatchesPattern(e: string)
    ensures IsEmailValid(e) <==> MatchesEmailPattern(e)
  {
    if IsEmailValid(e) {
      EmailRecognizerSound(e);
    }
    if MatchesEmailPattern(e) {
      EmailRecognizerComplete(e);
    }
  }

  /**
   * What an accepted address is made of: characters of the local class and
   * a single `@`.
   */
  lemma AcceptedEmailCharacters(e: string)
    requires IsEmailValid(e)
    ensures forall i :: 0 <= i < |e| ==> IsLocalChar(e[i]) || e[i] == '@'
    ensures forall i, j :: 0 <= i < j < |e| && e[i] == '@' ==> e[j] != '@'
  {
    var at := IndexOf(e, '@').value;
    var domain := e[at + 1..];
    var dot := LastIndexOf(domain, '.').value;
    forall i | 0 <= i < |e| && i != at
      ensures IsLocalChar(e[i])
    {
      if i < at {
        assert e[i] == e[..at][i];
      } else {
        var k := i - at - 1;
        assert domain[k] == e[i];
        if k < dot {
          assert domain[k] == domain[..dot][k];
        } else if k > dot {
          assert domain[k] == domain[dot + 1..][k - dot - 1];
        }
      }
    }
  }

  /** No accepted address holds an upper-case ASCII letter. */
  lemma EmailRejectsUpperCase(e: string, i: nat)
    requires i < |e| && 'A' <= e[i] <= 'Z'
    ensures !IsEmailValid(e)
  {
    if IsEmailValid(e) {
      AcceptedEmailCharacters(e);
    }
  }

  /** An accepted address holds exactly one `@`. */
  lemma EmailRejectsTwoAts(e: string, i: nat, j: nat)
    requires i < j < |e| && e[i] == '@' && e[j] == '@'
    ensures !IsEmailValid(e)
  {
    if IsEmailValid(e) {
      AcceptedEmailCharacters(e);
    }
  }

  /**
   * `User.checkFields`: a zero creation time is reported before the email
   * is looked at; nil exactly when the time is set and the email is valid.
   */
  function CheckUser(u: User): (r: Error)
    ensures u.createdAt == 0 ==> r == Fail(CreatedAtNull)
    ensures r == Fail(InvalidEmail) <==> u.createdAt != 0 && !IsEmailValid(u.email)
    ensures r == Nil <==> u.createdAt != 0 && IsEmailValid(u.email)
  {
    if u.createdAt == 0 then Fail(CreatedAtNull)
    else if !IsEmailValid(u.email) then Fail(InvalidEmail)
    else Nil
  }

  /** Registering with the email "not-an-email" is refused by the validator. */
  lemma NotAnEmailIsRefused(password: string, now: int)
    requires now != 0
    ensures CheckUser(User("not-an-email", password, now)) == Fail(InvalidEmail)
  {
    assert '@' !in "not-an-email";
  }

  /**
   * `createClaims`: the user's email, the given user id and a fresh session
   * id (a UUID, passed in); the user itself is a value and stays as it was.
   */
  function CreateClaims(u: User, userId: string, sessionUuid: string): (c: UserClaims)
    ensures c.email == u.email && c.userId == userId && c.sessionUuid == sessionUuid
  {
    UserClaims(u.email, userId, sessionUuid)
  }
}
