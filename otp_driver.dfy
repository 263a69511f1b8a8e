/** The OTP auth driver (OtpAuthDriver): resolves a login e-mail to a user id and
    issues and checks the ("email", "Request Login") challenge. */
module OtpDriver {
  import opened Common
  import opened Verifications

  /** The (carrier, subject) pair under which login codes are issued and checked. */
  const LoginCarrier := "email"
  const LoginSubject := "Request Login"

  /** ASCII lower-casing, as LOWER() and toLowerCase() do on ASCII letters. */
  function LowerChar(c: char): char {
    if 'A' <= c <= 'Z' then (c as int + 32) as char else c
  }

  function Lower(s: string): string {
    seq(|s|, i requires 0 <= i < |s| => LowerChar(s[i]))
  }

  /** `LOWER(email) = lower(payload email)`: a null email column never matches. */
  predicate EmailMatches(u: User, email: string) {
    u.email.Some? && Lower(u.email.value) == Lower(email)
  }

  /** `.first()` of the users whose e-mail matches. The query has no order, so
      FindByEmailCorrect promises only some matching user; the function itself
      fixes the first match in table order (see the README on shared e-mails). */
  function FindByEmail(users: seq<User>, email: string): Option<string> {
    if users == [] then None
    else if EmailMatches(users[0], email) then Some(users[0].id)
    else FindByEmail(users[1..], email)
  }

  /** getUserID: the id of a user with the payload's e-mail (see GetUserIDCorrect). */
  function GetUserID(users: seq<User>, payload: Payload): Result<string, Error> {
    if !Truthy(payload.email) then Failure(InvalidCredentials)
    else match FindByEmail(users, payload.email.value)
      case None => Failure(InvalidCredentials)
      case Some(id) => Success(id)
  }

  /** The lookup finds nothing exactly when no user's e-mail matches, and what it
      finds is the id of a matching user. */
  lemma {:induction false} FindByEmailCorrect(users: seq<User>, email: string)
    ensures FindByEmail(users, email).None? <==> forall u :: u in users ==> !EmailMatches(u, email)
    ensures FindByEmail(users, email).Some? ==>
              exists u :: u in users && u.id == FindByEmail(users, email).value && EmailMatches(u, email)
  {
    if users != [] {
      FindByEmailCorrect(users[1..], email);
    }
  }

  /** getUserID: InvalidCredentials for a missing or empty e-mail and for an
      e-mail no user has (compared case-insensitively); otherwise the id of a
      user with that e-mail. */
  lemma GetUserIDCorrect(users: seq<User>, payload: Payload)
    ensures GetUserID(users, payload).Failure? ==> GetUserID(users, payload).error == InvalidCredentials
    ensures GetUserID(users, payload).Success? <==>
              Truthy(payload.email) && exists u :: u in users && EmailMatches(u, payload.email.value)
    ensures GetUserID(users, payload).Success? ==>
              exists u :: u in users && u.id == GetUserID(users, payload).value && EmailMatches(u, payload.email.value)
  {
    if Truthy(payload.email) {
      FindByEmailCorrect(users, payload.email.value);
    }
  }

  /** The lookup depends on the e-mail only through its lower-cased form. */
  lemma {:induction false} FindByEmailIgnoresCase(users: seq<User>, e1: string, e2: string)
    requires Lower(e1) == Lower(e2)
    ensures FindByEmail(users, e1) == FindByEmail(users, e2)
  {
    if users != [] {
      assert EmailMatches(users[0], e1) == EmailMatches(users[0], e2);
      FindByEmailIgnoresCase(users[1..], e1, e2);
    }
  }

  lemma GetUserIDIgnoresCase(users: seq<User>, p1: Payload, p2: Payload)
    requires p1.email.Some? && p2.email.Some? && Lower(p1.email.value) == Lower(p2.email.value)
    ensures GetUserID(users, p1) == GetUserID(users, p2)
  {
    assert |p1.email.value| == |Lower(p1.email.value)| == |p2.email.value|;
    FindByEmailIgnoresCase(users, p1.email.value, p2.email.value);
  }

  /** The table after the driver's `request`: revocation for (ip, user) and the
      new ("email", "Request Login") row addressed to the user's e-mail. */
  function IssuedRows(rows: seq<Verification>, user: User, ip: Option<string>, code: Code, id: string,
                      now: int, ttl: int): seq<Verification>
  {
    Stamp(rows, ByRequester(DefaultIp(ip), user.id), now)
      + [Materialize(RequestDraft(ip, user.id, LoginCarrier, LoginSubject, user.email, code, now, ttl), id, now)]
  }

  /** Issue and check use the same (carrier, subject): the code `request` issued is
      the one `login` accepts until it expires, when the user has no unconsumed
      login challenge from another ip. */
  lemma RequestedCodeLogsIn(rows: seq<Verification>, user: User, ip: Option<string>, code: Code, id: string,
                            now: int, ttl: int, payload: Payload, later: int)
    requires OnlyFrom(rows, DefaultIp(ip), user.id, LoginCarrier, LoginSubject)
    requires payload.otp == Some(code) && later <= now + ttl
    ensures forall rows', r, p :: VerifyStep(IssuedRows(rows, user, ip, code, id, now, ttl), rows', user.id,
                                             LoginCarrier, LoginSubject, payload.otp, later, r, p)
              ==> r == Pass && rows' == Consume(IssuedRows(rows, user, ip, code, id, now, ttl), |rows|, later)
  {
    IssuedCodeVerifies(rows, ip, user.id, LoginCarrier, LoginSubject, user.email, code, id, now, ttl, later);
  }

  class OtpAuthDriver {
    /** The directus_verifications service every call of the driver goes through. */
    const verifications: VerificationsService

    constructor (verifications: VerificationsService)
      ensures this.verifications == verifications
    {
      this.verifications := verifications;
    }

    /** validateVerification: verify against the ("email", "Request Login") challenge. */
    method ValidateVerification(user: string, otp: Option<string>, now: int)
      returns (r: Outcome<Error>, ghost picked: Option<nat>)
      requires verifications.Valid()
      modifies verifications
      ensures verifications.Valid() && verifications.outbox == old(verifications.outbox)
      ensures VerifyStep(old(verifications.rows), verifications.rows, user, LoginCarrier, LoginSubject,
                         otp, now, r, picked)
    {
      r, picked := verifications.Verify(user, LoginCarrier, LoginSubject, otp, now);
    }

    method Verify(user: User, otp: Option<string>, now: int)
      returns (r: Outcome<Error>, ghost picked: Option<nat>)
      requires verifications.Valid()
      modifies verifications
      ensures verifications.Valid() && verifications.outbox == old(verifications.outbox)
      ensures VerifyStep(old(verifications.rows), verifications.rows, user.id, LoginCarrier, LoginSubject,
                         otp, now, r, picked)
    {
      r, picked := ValidateVerification(user.id, otp, now);
    }

    /** login: succeeds exactly when verifying `payload.otp` succeeds, with its error otherwise. */
    method Login(user: User, payload: Payload, now: int)
      returns (r: Outcome<Error>, ghost picked: Option<nat>)
      requires verifications.Valid()
      modifies verifications
      ensures verifications.Valid() && verifications.outbox == old(verifications.outbox)
      ensures VerifyStep(old(verifications.rows), verifications.rows, user.id, LoginCarrier, LoginSubject,
                         payload.otp, now, r, picked)
    {
      r, picked := Verify(user, payload.otp, now);
    }

    /** request: issues a login challenge to the user's e-mail, for type "email" only. */
    method Request(user: User, ip: Option<string>, kind: string, code: Code, id: string, now: int, ttl: int)
      returns (r: Outcome<Error>)
      requires verifications.Valid()
      modifies verifications
      ensures verifications.Valid()
      ensures kind != "email" ==> r == Pass && verifications.rows == old(verifications.rows)
                                  && verifications.outbox == old(verifications.outbox)
      ensures kind == "email" ==>
                && (r.Pass? <==> id !in Ids(old(verifications.rows)))
                && (r.Fail? ==> r.error == DuplicateKey)
                && verifications.outbox == old(verifications.outbox)
                   + MailFor(RequestDraft(ip, user.id, LoginCarrier, LoginSubject, user.email, code, now, ttl))
                && verifications.rows == (if r.Pass? then IssuedRows(old(verifications.rows), user, ip, code, id, now, ttl)
                                          else Stamp(old(verifications.rows), ByRequester(DefaultIp(ip), user.id), now))
    {
      if kind == "email" {
        r := verifications.Request(ip, user.id, LoginCarrier, LoginSubject, user.email, code, id, now, ttl);
      } else {
        r := Pass;
      }
    }
  }
}
