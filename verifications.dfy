/** The directus_verifications table and the service that issues, revokes and
    consumes one-time codes over it (VerificationsService). */
module Verifications {
  import opened Common

  /** A code from generateRandomString(4): always four characters. */
  type Code = s: string | |s| == 4 witness "0000"

  /** The ip stored, and matched by revocation, when a challenge has no ip. */
  const SystemIp := "system"

  /** The e-mail template that carries the code. */
  const MailTemplate := "email-verification"

  /** One row of directus_verifications. `carrier` is the column named `type`
      (the delivery channel, e.g. "email"); `subject` is the purpose tag
      (e.g. "Request Login"). Times are milliseconds since the epoch. */
  datatype Verification = Verification(
    id: string,
    user: string,
    ip: string,
    carrier: string,
    token: Option<string>,
    recipient: Option<string>,
    subject: string,
    usedAt: Option<int>,
    expires: Option<int>,
    createdAt: int)

  /** What a caller hands to createOne: a partial record without id and used_at. */
  datatype PartialVerification = PartialVerification(
    user: string,
    recipient: Option<string>,
    ip: Option<string>,
    carrier: string,
    token: Option<string>,
    subject: string,
    expires: Option<int>)

  /** A message handed to the mail service. */
  datatype Mail = Mail(template: string, token: Option<string>, to: string, subject: string)

  /** `ip ? ip : 'system'`, shared by createOne and revocation. */
  function DefaultIp(ip: Option<string>): string {
    if Truthy(ip) then ip.value else SystemIp
  }

  /** The row createOne stores for a draft, a fresh uuid and the database clock. */
  function Materialize(d: PartialVerification, id: string, now: int): Verification {
    Verification(id, d.user, DefaultIp(d.ip), d.carrier, d.token, d.recipient, d.subject, None, d.expires, now)
  }

  /** The draft `request` builds: the code as token, `expires = now + ttl`. */
  function RequestDraft(ip: Option<string>, user: string, carrier: string, subject: string,
                        recipient: Option<string>, code: Code, now: int, ttl: int): PartialVerification {
    PartialVerification(user, recipient, ip, carrier, Some(code), subject, Some(now + ttl))
  }

  /** The mail createOne dispatches: only for carrier "email" and a truthy recipient. */
  function MailFor(d: PartialVerification): seq<Mail> {
    if d.carrier == "email" && Truthy(d.recipient)
    then [Mail(MailTemplate, d.token, d.recipient.value, d.subject)]
    else []
  }

  // ---------------------------------------------------------------------------
  // Updates "where": the filters of updateByQuery (revocation) and updateMany (updateOne)

  datatype Filter = ByRequester(ip: string, user: string) | ById(id: string)

  predicate Selects(f: Filter, v: Verification) {
    match f
    case ByRequester(ip, user) => v.ip == ip && v.user == user
    case ById(id) => v.id == id
  }

  function StampOne(v: Verification, f: Filter, now: int): Verification {
    if Selects(f, v) then v.(usedAt := Some(now)) else v
  }

  /** The table after `update set used_at = now where f`. */
  function Stamp(rows: seq<Verification>, f: Filter, now: int): seq<Verification> {
    seq(|rows|, i requires 0 <= i < |rows| => StampOne(rows[i], f, now))
  }

  /** The primary keys of the rows `f` selects, in table order. */
  function SelectedIds(rows: seq<Verification>, f: Filter): seq<string> {
    if rows == [] then []
    else SelectedIds(rows[..|rows| - 1], f) + (if Selects(f, rows[|rows| - 1]) then [rows[|rows| - 1].id] else [])
  }

  /** One more row of the table adds its key exactly when `f` selects it. */
  lemma SelectedIdsStep(rows: seq<Verification>, i: nat, f: Filter)
    requires i < |rows|
    ensures SelectedIds(rows[..i + 1], f)
            == SelectedIds(rows[..i], f) + (if Selects(f, rows[i]) then [rows[i].id] else [])
  {
    assert rows[..i + 1][..i] == rows[..i];
  }

  function Ids(rows: seq<Verification>): set<string> {
    set v | v in rows :: v.id
  }

  /** `id` is the primary key. */
  ghost predicate UniqueIds(rows: seq<Verification>) {
    forall i, j :: 0 <= i < j < |rows| ==> rows[i].id != rows[j].id
  }

  // ---------------------------------------------------------------------------
  // Verification of a submitted code

  /** A row verify's query can return: same user, carrier and subject, used_at null. */
  predicate Pending(v: Verification, user: string, carrier: string, subject: string) {
    v.user == user && v.carrier == carrier && v.subject == subject && v.usedAt.None?
  }

  predicate HasPending(rows: seq<Verification>, user: string, carrier: string, subject: string) {
    exists k :: 0 <= k < |rows| && Pending(rows[k], user, carrier, subject)
  }

  function PendingIndices(rows: seq<Verification>, user: string, carrier: string, subject: string): set<nat> {
    set k: nat | k < |rows| && Pending(rows[k], user, carrier, subject)
  }

  /** `new Date(expires)`: a null expiry is the epoch. */
  function ExpiresAt(v: Verification): int {
    match v.expires
    case None => 0
    case Some(t) => t
  }

  /** The two checks verify applies to the row it found: token first, then expiry. */
  function Check(v: Verification, otp: Option<string>, now: int): (r: Outcome<Error>)
    ensures r.Pass? <==> v.token == otp && now <= ExpiresAt(v)
    ensures r.Fail? ==> r.error == InvalidOtp
    ensures v.token != otp ==> r == Fail(InvalidOtp)
  {
    if v.token != otp then Fail(InvalidOtp)
    else if ExpiresAt(v) < now then Fail(InvalidOtp)
    else Pass
  }

  /** The table after stamping used_at on row k alone. */
  function Consume(rows: seq<Verification>, k: nat, now: int): seq<Verification>
    requires k < |rows|
  {
    rows[k := rows[k].(usedAt := Some(now))]
  }

  /** One run of verify: `rows` before, `rows'` after, `picked` the row the
      unsorted `limit: 1` query happened to return. */
  ghost predicate VerifyStep(rows: seq<Verification>, rows': seq<Verification>, user: string, carrier: string,
                             subject: string, otp: Option<string>, now: int, r: Outcome<Error>, picked: Option<nat>)
  {
    if !HasPending(rows, user, carrier, subject) then
      r == Fail(UnexpectedResponse) && rows' == rows && picked == None
    else
      && picked.Some? && picked.value < |rows|
      && Pending(rows[picked.value], user, carrier, subject)
      && r == Check(rows[picked.value], otp, now)
      && rows' == (if r.Pass? then Consume(rows, picked.value, now) else rows)
  }

  // ---------------------------------------------------------------------------
  // Lemmas about the table

  /** Revocation rewrites only used_at, so it keeps the primary keys. */
  lemma StampKeepsIds(rows: seq<Verification>, f: Filter, now: int)
    ensures |Stamp(rows, f, now)| == |rows|
    ensures Ids(Stamp(rows, f, now)) == Ids(rows)
    ensures UniqueIds(rows) ==> UniqueIds(Stamp(rows, f, now))
  {
    var s := Stamp(rows, f, now);
    forall x | x in Ids(rows) ensures x in Ids(s) {
      var i :| 0 <= i < |rows| && rows[i].id == x;
      assert s[i].id == x;
    }
    forall x | x in Ids(s) ensures x in Ids(rows) {
      var i :| 0 <= i < |s| && s[i].id == x;
      assert rows[i].id == x;
    }
  }

  /** updateOne(id) goes through updateMany, i.e. "where id = key"; with a
      unique primary key this stamps exactly the one row that carries it. */
  lemma UpdateByIdIsConsume(rows: seq<Verification>, k: nat, now: int)
    requires UniqueIds(rows) && k < |rows|
    ensures Stamp(rows, ById(rows[k].id), now) == Consume(rows, k, now)
  {
  }

  /** A row stored without an ip (or with "") is keyed "system", and revocation
      without an ip uses the same key, so system-issued challenges revoke each other. */
  lemma StoredIpIsRevocationKey(d: PartialVerification, id: string, now: int, later: int)
    ensures !Truthy(d.ip) ==> Materialize(d, id, now).ip == SystemIp
    ensures StampOne(Materialize(d, id, now), ByRequester(DefaultIp(d.ip), d.user), later).usedAt == Some(later)
  {
  }

  /** After `request` (revoke for (ip, user), then insert), the new row is the
      only row of that (ip, user) whose used_at is null. */
  lemma RequestLeavesSingleUnconsumed(rows: seq<Verification>, d: PartialVerification, id: string, now: int)
    ensures var v := Materialize(d, id, now);
            var after := Stamp(rows, ByRequester(v.ip, v.user), now) + [v];
            (set i: nat | i < |after| && after[i].ip == v.ip && after[i].user == v.user && after[i].usedAt.None?) == {|rows|}
  {
  }

  /** A successful verify removes exactly the picked row from the candidates. */
  lemma ConsumeRemovesOnlyPicked(rows: seq<Verification>, k: nat, user: string, carrier: string,
                                 subject: string, now: int)
    requires k < |rows|
    ensures PendingIndices(Consume(rows, k, now), user, carrier, subject)
            == PendingIndices(rows, user, carrier, subject) - {k}
  {
  }

  /** Single use: when the picked row was the only candidate, repeating verify
      after a success fails as not-found and changes nothing. */
  lemma RepeatedVerifyNotFound(rows: seq<Verification>, rows': seq<Verification>, k: nat, user: string,
                               carrier: string, subject: string, otp: Option<string>, now: int, later: int)
    requires PendingIndices(rows, user, carrier, subject) == {k}
    requires VerifyStep(rows, rows', user, carrier, subject, otp, now, Pass, Some(k))
    ensures forall rows'', r, p :: VerifyStep(rows', rows'', user, carrier, subject, otp, later, r, p)
              ==> r == Fail(UnexpectedResponse) && rows'' == rows'
  {
    assert k in PendingIndices(rows, user, carrier, subject);
    ConsumeRemovesOnlyPicked(rows, k, user, carrier, subject, now);
    assert PendingIndices(rows', user, carrier, subject) == {};
    forall j | 0 <= j < |rows'| ensures !Pending(rows'[j], user, carrier, subject) {
      assert j !in PendingIndices(rows', user, carrier, subject);
    }
  }

  /** A wrong code does not burn the challenge: with row k the only candidate, a
      wrong code is refused with InvalidOtp and changes nothing, and the right
      code still succeeds afterwards, up to and including the expiry instant. */
  lemma WrongCodeKeepsChallenge(rows: seq<Verification>, rows': seq<Verification>, k: nat, user: string,
                                carrier: string, subject: string, wrong: Option<string>, now: int,
                                r: Outcome<Error>, p: Option<nat>, later: int)
    requires k < |rows| && PendingIndices(rows, user, carrier, subject) == {k}
    requires wrong != rows[k].token
    requires VerifyStep(rows, rows', user, carrier, subject, wrong, now, r, p)
    ensures r == Fail(InvalidOtp) && rows' == rows
    ensures later <= ExpiresAt(rows[k]) ==>
              forall rows'', r', p' :: VerifyStep(rows', rows'', user, carrier, subject, rows[k].token, later, r', p')
                ==> r' == Pass && rows'' == Consume(rows, k, later)
  {
    assert k in PendingIndices(rows, user, carrier, subject);
    assert HasPending(rows, user, carrier, subject);
    assert p.value in PendingIndices(rows, user, carrier, subject);
    forall rows'', r', p' | VerifyStep(rows', rows'', user, carrier, subject, rows[k].token, later, r', p')
      ensures p' == Some(k)
    {
      assert p'.value in PendingIndices(rows, user, carrier, subject);
    }
  }

  /** Every unconsumed challenge of `user` for (carrier, subject) came from `ip`. */
  ghost predicate OnlyFrom(rows: seq<Verification>, ip: string, user: string, carrier: string, subject: string) {
    forall k :: 0 <= k < |rows| && Pending(rows[k], user, carrier, subject) ==> rows[k].ip == ip
  }

  /** Issue-then-check round trip: a code inserted by `request` is the one verify
      finds and accepts until its expiry, provided the user has no unconsumed
      challenge for the same pair from another ip (those `request` does not revoke). */
  lemma IssuedCodeVerifies(rows: seq<Verification>, ip: Option<string>, user: string, carrier: string,
                           subject: string, recipient: Option<string>, code: Code, id: string,
                           now: int, ttl: int, later: int)
    requires OnlyFrom(rows, DefaultIp(ip), user, carrier, subject)
    ensures var v := Materialize(RequestDraft(ip, user, carrier, subject, recipient, code, now, ttl), id, now);
            var after := Stamp(rows, ByRequester(DefaultIp(ip), user), now) + [v];
            && PendingIndices(after, user, carrier, subject) == {|rows|}
            && (later <= now + ttl ==>
                 forall rows', r, p :: VerifyStep(after, rows', user, carrier, subject, Some(code), later, r, p)
                   ==> r == Pass && p == Some(|rows|) && rows' == Consume(after, |rows|, later))
  {
  }

  /** `request` from (ip, user) keeps the user's unconsumed challenges for the pair
      all from that ip: it revokes the old ones of (ip, user) and adds one from ip. */
  lemma RequestKeepsOnlyFrom(rows: seq<Verification>, ip: Option<string>, user: string, carrier: string,
                             subject: string, recipient: Option<string>, code: Code, id: string, now: int, ttl: int)
    requires OnlyFrom(rows, DefaultIp(ip), user, carrier, subject)
    ensures OnlyFrom(Stamp(rows, ByRequester(DefaultIp(ip), user), now)
                       + [Materialize(RequestDraft(ip, user, carrier, subject, recipient, code, now, ttl), id, now)],
                     DefaultIp(ip), user, carrier, subject)
  {
  }

  /** Issuing A and then B from the same (ip, user) revokes A: submitting A's
      code afterwards is refused (B is the only candidate) and consumes nothing,
      while B's code is accepted until B expires and consumes B's row. */
  lemma SupersededCodeRejected(rows: seq<Verification>, ip: Option<string>, user: string, carrier: string,
                               subject: string, recipient: Option<string>, codeA: Code, idA: string, t1: int,
                               codeB: Code, idB: string, t2: int, ttl: int, later: int)
    requires OnlyFrom(rows, DefaultIp(ip), user, carrier, subject)
    requires codeA != codeB
    ensures var a := Materialize(RequestDraft(ip, user, carrier, subject, recipient, codeA, t1, ttl), idA, t1);
            var b := Materialize(RequestDraft(ip, user, carrier, subject, recipient, codeB, t2, ttl), idB, t2);
            var afterA := Stamp(rows, ByRequester(DefaultIp(ip), user), t1) + [a];
            var afterB := Stamp(afterA, ByRequester(DefaultIp(ip), user), t2) + [b];
            && (forall rows', r, p :: VerifyStep(afterB, rows', user, carrier, subject, Some(codeA), later, r, p)
                  ==> r == Fail(InvalidOtp) && rows' == afterB)
            && (later <= t2 + ttl ==>
                  forall rows', r, p :: VerifyStep(afterB, rows', user, carrier, subject, Some(codeB), later, r, p)
                    ==> r == Pass && rows' == Consume(afterB, |afterA|, later))
  {
    var a := Materialize(RequestDraft(ip, user, carrier, subject, recipient, codeA, t1, ttl), idA, t1);
    var b := Materialize(RequestDraft(ip, user, carrier, subject, recipient, codeB, t2, ttl), idB, t2);
    var afterA := Stamp(rows, ByRequester(DefaultIp(ip), user), t1) + [a];
    var afterB := Stamp(afterA, ByRequester(DefaultIp(ip), user), t2) + [b];
    RequestKeepsOnlyFrom(rows, ip, user, carrier, subject, recipient, codeA, idA, t1, ttl);
    IssuedCodeVerifies(afterA, ip, user, carrier, subject, recipient, codeB, idB, t2, ttl, later);
    assert PendingIndices(afterB, user, carrier, subject) == {|afterA|};
    assert afterB[|afterA|] == b;
    forall rows', r, p | VerifyStep(afterB, rows', user, carrier, subject, Some(codeA), later, r, p)
      ensures r == Fail(InvalidOtp) && rows' == afterB
    {
      assert |afterA| in PendingIndices(afterB, user, carrier, subject);
      assert HasPending(afterB, user, carrier, subject);
      assert p.value in PendingIndices(afterB, user, carrier, subject);
    }
  }

  // ---------------------------------------------------------------------------
  // The service

  /** VerificationsService over the directus_verifications table; `outbox`
      records what was handed to the mail service. */
  class VerificationsService {
    var rows: seq<Verification>
    ghost var outbox: seq<Mail>

    ghost predicate Valid()
      reads this
    {
      UniqueIds(rows)
    }

    constructor (initial: seq<Verification>)
      requires UniqueIds(initial)
      ensures Valid() && rows == initial && outbox == []
    {
      rows := initial;
      outbox := [];
    }

    /** updateByQuery / updateMany with `{ used_at: now }`: stamps, in place,
        every row the filter selects and returns their keys. */
    method UpdateUsedAt(f: Filter, now: int) returns (keys: seq<string>)
      requires Valid()
      modifies this
      ensures Valid() && outbox == old(outbox)
      ensures rows == Stamp(old(rows), f, now)
      ensures keys == SelectedIds(old(rows), f)
    {
      ghost var rows0 := rows;
      keys := [];
      var i := 0;
      while i < |rows|
        invariant 0 <= i <= |rows| == |rows0|
        invariant forall j :: 0 <= j < i ==> rows[j] == StampOne(rows0[j], f, now)
        invariant forall j :: i <= j < |rows| ==> rows[j] == rows0[j]
        invariant keys == SelectedIds(rows0[..i], f)
        invariant outbox == old(outbox)
      {
        SelectedIdsStep(rows0, i, f);
        if Selects(f, rows[i]) {
          keys := keys + [rows[i].id];
          rows := rows[i := rows[i].(usedAt := Some(now))];
        }
        i := i + 1;
      }
      assert rows0[..i] == rows0;
      assert rows == Stamp(rows0, f, now);
      StampKeepsIds(rows0, f, now);
    }

    /** updateOne(key, { used_at: now }). */
    method UpdateOne(key: string, now: int) returns (r: string)
      requires Valid()
      modifies this
      ensures Valid() && outbox == old(outbox)
      ensures rows == Stamp(old(rows), ById(key), now)
      ensures r == key
    {
      var _ := UpdateUsedAt(ById(key), now);
      r := key;
    }

    /** revokeAllCurrentRequest: stamps used_at on every row of (ip or "system", user),
        already-used rows included, whatever their carrier or subject. */
    method RevokeAllCurrentRequest(ip: Option<string>, user: string, now: int) returns (keys: seq<string>)
      requires Valid()
      modifies this
      ensures Valid() && outbox == old(outbox)
      ensures rows == Stamp(old(rows), ByRequester(DefaultIp(ip), user), now)
      ensures |rows| == |old(rows)|
      ensures forall i :: 0 <= i < |rows| && old(rows)[i].ip == DefaultIp(ip) && old(rows)[i].user == user
                ==> rows[i] == old(rows)[i].(usedAt := Some(now))
      ensures forall i :: 0 <= i < |rows| && !(old(rows)[i].ip == DefaultIp(ip) && old(rows)[i].user == user)
                ==> rows[i] == old(rows)[i]
      ensures keys == SelectedIds(old(rows), ByRequester(DefaultIp(ip), user))
    {
      keys := UpdateUsedAt(ByRequester(DefaultIp(ip), user), now);
    }

    /** sendEmail: hands the code to the mail service when there is a recipient. */
    method SendEmail(d: PartialVerification)
      modifies this
      ensures rows == old(rows)
      ensures outbox == old(outbox) + (if Truthy(d.recipient)
                                       then [Mail(MailTemplate, d.token, d.recipient.value, d.subject)] else [])
    {
      if Truthy(d.recipient) {
        outbox := outbox + [Mail(MailTemplate, d.token, d.recipient.value, d.subject)];
      }
    }

    /** createOne: mails the code for carrier "email", then stores the draft under
        the fresh uuid `id` with ip defaulted to "system". The mail goes out even
        when the insert is refused because `id` is taken. */
    method CreateOne(d: PartialVerification, id: string, now: int) returns (r: Result<string, Error>)
      requires Valid()
      modifies this
      ensures Valid()
      ensures outbox == old(outbox) + MailFor(d)
      ensures r.Success? <==> id !in Ids(old(rows))
      ensures r.Success? ==> r.value == id && rows == old(rows) + [Materialize(d, id, now)]
      ensures r.Failure? ==> r.error == DuplicateKey && rows == old(rows)
    {
      if d.carrier == "email" {
        SendEmail(d);
      }
      var v := Materialize(d, id, now);
      if id in Ids(rows) {
        return Failure(DuplicateKey);
      }
      forall i | 0 <= i < |rows| ensures rows[i].id != id {
        assert rows[i] in rows;
      }
      rows := rows + [v];
      r := Success(id);
    }

    /** request: builds the code record with `expires = now + ttl`, revokes every
        row of (ip, user), then inserts the new record. */
    method Request(ip: Option<string>, user: string, carrier: string, subject: string,
                   recipient: Option<string>, code: Code, id: string, now: int, ttl: int)
      returns (r: Outcome<Error>)
      requires Valid()
      modifies this
      ensures Valid()
      ensures var d := RequestDraft(ip, user, carrier, subject, recipient, code, now, ttl);
              && outbox == old(outbox) + MailFor(d)
              && (r.Pass? <==> id !in Ids(old(rows)))
              && (r.Fail? ==> r.error == DuplicateKey)
              && rows == Stamp(old(rows), ByRequester(DefaultIp(ip), user), now)
                         + (if r.Pass? then [Materialize(d, id, now)] else [])
    {
      var d := RequestDraft(ip, user, carrier, subject, recipient, code, now, ttl);
      StampKeepsIds(rows, ByRequester(DefaultIp(ip), user), now);
      var _ := RevokeAllCurrentRequest(d.ip, d.user, now);
      var created := CreateOne(d, id, now);
      r := if created.Success? then Pass else Fail(created.error);
    }

    /** verify: finds some unconsumed row of (user, carrier, subject); fails as
        not-found when there is none, with InvalidOtp on a wrong code and then on
        an expiry before `now`; otherwise stamps used_at on that row. */
    method Verify(user: string, carrier: string, subject: string, otp: Option<string>, now: int)
      returns (r: Outcome<Error>, ghost picked: Option<nat>)
      requires Valid()
      modifies this
      ensures Valid() && outbox == old(outbox)
      ensures VerifyStep(old(rows), rows, user, carrier, subject, otp, now, r, picked)
    {
      if exists k :: 0 <= k < |rows| && Pending(rows[k], user, carrier, subject) {
        var k :| 0 <= k < |rows| && Pending(rows[k], user, carrier, subject);
        picked := Some(k);
        var v := rows[k];
        if v.token != otp {
          return Fail(InvalidOtp), picked;
        }
        if ExpiresAt(v) < now {
          return Fail(InvalidOtp), picked;
        }
        UpdateByIdIsConsume(rows, k, now);
        var _ := UpdateOne(v.id, now);
        r := Pass;
      } else {
        r, picked := Fail(UnexpectedResponse), None;
      }
    }
  }
}
