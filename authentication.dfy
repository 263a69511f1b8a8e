/** MVAuthenticationService: loginRequest and login over the users table, the
    sessions table and the process-wide login-attempts limiter. */
module Authentication {
  import opened Common
  import opened Verifications
  import opened OtpDriver

  /** The configured time-to-live values, already converted to milliseconds. */
  datatype Config = Config(otpTtl: int, accessTokenTtl: int, refreshTokenTtl: int)

  /** A nanoid(64) refresh token. */
  type RefreshToken = s: string | |s| == 64 witness seq(64, _ => 'a')

  /** One row of directus_sessions. */
  datatype Session = Session(token: string, user: string, expires: int, ip: Option<string>, userAgent: Option<string>)

  datatype LoginResult = LoginResult(accessToken: string, refreshToken: string, expires: int, id: string)

  /** An `auth.login` action: its status, the loaded user's id and the filtered payload. */
  datatype LoginEvent = LoginEvent(success: bool, user: Option<string>, payload: Payload)

  // ---------------------------------------------------------------------------
  // The login-attempts limiter

  /** A consume from count `c` is refused once the new count exceeds `points`. */
  predicate Rejects(c: nat, points: int) {
    c + 1 > points
  }

  /** The counter one limited attempt leaves: incremented, or reset to 0 after a
      refused consume (that attempt suspends the user). */
  function AfterConsume(c: nat, points: int): nat {
    if Rejects(c, points) then 0 else c + 1
  }

  /** Counter and "suspended" flag after `n` consecutive logins that fail the code
      check, starting from counter `c`; a suspension ends the run, since the
      status gate refuses every later attempt before it reaches the limiter
      (SuspendedIsLockedOut). */
  function FailedLogins(c: nat, points: int, n: nat): (nat, bool)
    decreases n
  {
    if n == 0 then (c, false)
    else if Rejects(c, points) then (AfterConsume(c, points), true)
    else FailedLogins(AfterConsume(c, points), points, n - 1)
  }

  /** The lockout protocol: from counter c, failures keep counting up to `points`
      without suspending; the attempt that would exceed `points` suspends the
      user and leaves the counter at 0. */
  lemma {:induction false} LockoutThreshold(c: nat, points: int, n: nat)
    ensures c + n <= points ==> FailedLogins(c, points, n) == (c + n, false)
    ensures 0 < n && c + n == points + 1 ==> FailedLogins(c, points, n) == (0, true)
    decreases n
  {
    if n > 0 && c + n <= points + 1 {
      if c + 1 <= points {
        LockoutThreshold(c + 1, points, n - 1);
      }
    }
  }

  /** The points a key has consumed; a key never seen has consumed none. */
  function CountIn(consumed: map<string, nat>, key: string): nat {
    if key in consumed then consumed[key] else 0
  }

  /** The module-level rate limiter: a per-user map of consumed points. */
  class LoginAttemptsLimiter {
    var points: int
    var consumed: map<string, nat>

    function Count(key: string): nat
      reads this
    {
      CountIn(consumed, key)
    }

    constructor (points: int)
      ensures this.points == points && consumed == map[]
    {
      this.points := points;
      consumed := map[];
    }

    /** consume(key): adds one point; refused when the count then exceeds `points`. */
    method Consume(key: string) returns (ok: bool)
      modifies this
      ensures points == old(points)
      ensures consumed == old(consumed)[key := old(Count(key)) + 1]
      ensures ok <==> !Rejects(old(Count(key)), points)
    {
      var c := Count(key) + 1;
      consumed := consumed[key := c];
      ok := c <= points;
    }

    /** set(key, n, 0): the count becomes n. */
    method Set(key: string, n: nat)
      modifies this
      ensures points == old(points)
      ensures consumed == old(consumed)[key := n]
    {
      consumed := consumed[key := n];
    }
  }

  // ---------------------------------------------------------------------------
  // Tables and the status gate

  /** `select ... where u.id = id .first()`. */
  function FindById(users: seq<User>, id: string): Option<User> {
    if users == [] then None
    else if users[0].id == id then Some(users[0])
    else FindById(users[1..], id)
  }

  /** The lookup returns a user with the id, or none exactly when no user has it. */
  lemma {:induction false} FindByIdCorrect(users: seq<User>, id: string)
    ensures FindById(users, id).Some? ==> FindById(users, id).value in users && FindById(users, id).value.id == id
    ensures FindById(users, id).None? <==> forall u :: u in users ==> u.id != id
  {
    if users != [] {
      FindByIdCorrect(users[1..], id);
    }
  }

  /** The user row loaded after identity resolution, if any. */
  function LoadedUser(users: seq<User>, payload: Payload): Option<User> {
    match GetUserID(users, payload)
    case Failure(_) => None
    case Success(id) => FindById(users, id)
  }

  /** `user?.id` as the events report it. */
  function EventUser(users: seq<User>, payload: Payload): Option<string> {
    match LoadedUser(users, payload)
    case None => None
    case Some(u) => Some(u.id)
  }

  /** Identity resolution, user load and the status gate that loginRequest and
      login share (see GateCorrect). */
  function Gate(users: seq<User>, payload: Payload): Result<User, Error> {
    match GetUserID(users, payload)
    case Failure(e) => Failure(e)
    case Success(id) =>
      match FindById(users, id)
      case None => Failure(InvalidCredentials)
      case Some(u) =>
        if u.status == Active then Success(u)
        else if u.status == Suspended then Failure(UserSuspended)
        else Failure(InvalidCredentials)
  }

  /** Only an active user found by identity resolution passes the gate; a
      suspended loaded user gets UserSuspended; a missing or otherwise inactive
      one, and every identity failure, InvalidCredentials. */
  lemma GateCorrect(users: seq<User>, payload: Payload)
    ensures Gate(users, payload).Success? ==>
              && Gate(users, payload).value in users && Gate(users, payload).value.status == Active
              && GetUserID(users, payload) == Success(Gate(users, payload).value.id)
    ensures Gate(users, payload) == Failure(UserSuspended) <==>
              exists u :: u in users && u.status == Suspended && LoadedUser(users, payload) == Some(u)
    ensures Gate(users, payload).Failure? ==>
              Gate(users, payload).error == InvalidCredentials || Gate(users, payload).error == UserSuspended
    ensures GetUserID(users, payload).Failure? ==> Gate(users, payload) == Failure(InvalidCredentials)
    ensures LoadedUser(users, payload).Some? && LoadedUser(users, payload).value.status == Active ==>
              Gate(users, payload) == Success(LoadedUser(users, payload).value)
  {
    GetUserIDCorrect(users, payload);
    if GetUserID(users, payload).Success? {
      FindByIdCorrect(users, GetUserID(users, payload).value);
    }
  }

  /** `update directus_users set status = s where id = id`. */
  function SetStatus(users: seq<User>, id: string, s: Status): seq<User> {
    seq(|users|, i requires 0 <= i < |users| => if users[i].id == id then users[i].(status := s) else users[i])
  }

  /** `update directus_users set last_access = t where id = id`. */
  function SetLastAccess(users: seq<User>, id: string, t: int): seq<User> {
    seq(|users|, i requires 0 <= i < |users| => if users[i].id == id then users[i].(lastAccess := Some(t)) else users[i])
  }

  /** Status and last_access updates leave the e-mail lookup alone. */
  lemma {:induction false} FindByEmailKeepsUnderUpdates(users: seq<User>, id: string, s: Status, t: int, e: string)
    ensures FindByEmail(SetStatus(users, id, s), e) == FindByEmail(users, e)
    ensures FindByEmail(SetLastAccess(users, id, t), e) == FindByEmail(users, e)
  {
    if users != [] {
      assert SetStatus(users, id, s)[1..] == SetStatus(users[1..], id, s);
      assert SetLastAccess(users, id, t)[1..] == SetLastAccess(users[1..], id, t);
      FindByEmailKeepsUnderUpdates(users[1..], id, s, t, e);
    }
  }

  /** After the updates, the row loaded by id is the old one with the new status
      or last_access when it is the updated user, and the old one otherwise. */
  lemma {:induction false} FindByIdUnderUpdates(users: seq<User>, id: string, s: Status, t: int, x: string)
    ensures FindById(SetStatus(users, id, s), x)
            == if x == id && FindById(users, x).Some? then Some(FindById(users, x).value.(status := s))
               else FindById(users, x)
    ensures FindById(SetLastAccess(users, id, t), x)
            == if x == id && FindById(users, x).Some? then Some(FindById(users, x).value.(lastAccess := Some(t)))
               else FindById(users, x)
  {
    if users != [] {
      assert SetStatus(users, id, s)[1..] == SetStatus(users[1..], id, s);
      assert SetLastAccess(users, id, t)[1..] == SetLastAccess(users[1..], id, t);
      FindByIdUnderUpdates(users[1..], id, s, t, x);
    }
  }

  /** The lockout step: a user the limiter suspends is refused with UserSuspended by
      the gate of the next login or login request with any payload that loads
      them (another casing of the e-mail, say), whether or not the suspending
      login went on to set last_access. */
  lemma SuspendedIsLockedOut(users: seq<User>, payload: Payload, u: User, t: int)
    requires LoadedUser(users, payload) == Some(u)
    ensures Gate(SetStatus(users, u.id, Suspended), payload) == Failure(UserSuspended)
    ensures Gate(SetLastAccess(SetStatus(users, u.id, Suspended), u.id, t), payload) == Failure(UserSuspended)
  {
    var suspended := SetStatus(users, u.id, Suspended);
    FindByIdCorrect(users, GetUserID(users, payload).value);
    FindByEmailKeepsUnderUpdates(users, u.id, Suspended, t, payload.email.value);
    FindByEmailKeepsUnderUpdates(suspended, u.id, Suspended, t, payload.email.value);
    FindByIdUnderUpdates(users, u.id, Suspended, t, u.id);
    FindByIdUnderUpdates(suspended, u.id, Suspended, t, u.id);
  }

  /** The user a passing gate returns is the one its payload loads, so the lockout
      applies to the next attempt with the same payload too. */
  lemma PassedUserIsLoaded(users: seq<User>, payload: Payload)
    requires Gate(users, payload).Success?
    ensures LoadedUser(users, payload) == Some(Gate(users, payload).value)
  {
  }

  /** `delete from directus_sessions where user = uid`. */
  function WithoutUser(sessions: seq<Session>, uid: string): seq<Session> {
    if sessions == [] then []
    else (if sessions[0].user == uid then [] else [sessions[0]]) + WithoutUser(sessions[1..], uid)
  }

  /** The sessions of `uid`, in table order. */
  function SessionsOf(sessions: seq<Session>, uid: string): seq<Session> {
    if sessions == [] then []
    else (if sessions[0].user == uid then [sessions[0]] else []) + SessionsOf(sessions[1..], uid)
  }

  lemma {:induction false} SessionsOfAppend(a: seq<Session>, b: seq<Session>, uid: string)
    ensures SessionsOf(a + b, uid) == SessionsOf(a, uid) + SessionsOf(b, uid)
  {
    if a != [] {
      assert (a + b)[1..] == a[1..] + b;
      SessionsOfAppend(a[1..], b, uid);
    } else {
      assert a + b == b;
    }
  }

  lemma {:induction false} SessionsOfWithoutUser(sessions: seq<Session>, uid: string, v: string)
    ensures SessionsOf(WithoutUser(sessions, uid), v) == if v == uid then [] else SessionsOf(sessions, v)
  {
    if sessions != [] {
      var head := if sessions[0].user == uid then [] else [sessions[0]];
      SessionsOfAppend(head, WithoutUser(sessions[1..], uid), v);
      SessionsOfWithoutUser(sessions[1..], uid, v);
      if head != [] {
        assert head[1..] == [];
      }
    }
  }

  /** Session replacement: after deleting the user's sessions and inserting the
      new one, the user has exactly that session and nobody else's changed. */
  lemma SingleSessionAfterLogin(sessions: seq<Session>, s: Session, v: string)
    ensures SessionsOf(WithoutUser(sessions, s.user) + [s], s.user) == [s]
    ensures v != s.user ==> SessionsOf(WithoutUser(sessions, s.user) + [s], v) == SessionsOf(sessions, v)
  {
    SessionsOfAppend(WithoutUser(sessions, s.user), [s], s.user);
    SessionsOfAppend(WithoutUser(sessions, s.user), [s], v);
    SessionsOfWithoutUser(sessions, s.user, s.user);
    SessionsOfWithoutUser(sessions, s.user, v);
    assert [s][1..] == [];
  }

  // ---------------------------------------------------------------------------
  // The service

  class MVAuthenticationService {
    var users: seq<User>
    var sessions: seq<Session>
    /** The "otp" provider that getAuthProvider returns. */
    const provider: OtpAuthDriver
    /** The process-wide limiter, shared by every service instance. */
    const limiter: LoginAttemptsLimiter
    const accountability: Option<Accountability>
    const config: Config
    /** The `auth.login` actions emitted, in order. */
    ghost var events: seq<LoginEvent>
    /** How many times an entry point stalled before returning or throwing. */
    ghost var stalls: nat

    ghost predicate Valid()
      reads provider.verifications
    {
      provider.verifications.Valid()
    }

    constructor (users: seq<User>, sessions: seq<Session>, provider: OtpAuthDriver, limiter: LoginAttemptsLimiter,
                 accountability: Option<Accountability>, config: Config)
      requires provider.verifications.Valid()
      ensures Valid()
      ensures this.users == users && this.sessions == sessions && this.provider == provider
      ensures this.limiter == limiter && this.accountability == accountability && this.config == config
      ensures events == [] && stalls == 0
    {
      this.users := users;
      this.sessions := sessions;
      this.provider := provider;
      this.limiter := limiter;
      this.accountability := accountability;
      this.config := config;
      events := [];
      stalls := 0;
    }

    function RequestIp(): Option<string> {
      if accountability.Some? then accountability.value.ip else None
    }

    function RequestUserAgent(): Option<string> {
      if accountability.Some? then accountability.value.userAgent else None
    }

    /** Identity resolution and status gate, shared by both entry points; on a
        pass the user is active. Stalls on every refusal. */
    method ResolveActiveUser(payload: Payload, filtered: Payload) returns (r: Result<User, Error>)
      modifies this
      ensures users == old(users) && sessions == old(sessions)
      ensures r == Gate(old(users), payload)
      ensures r.Failure? ==> stalls == old(stalls) + 1
      ensures r.Success? ==> stalls == old(stalls)
      ensures events == old(events) + (if r.Failure? && GetUserID(old(users), payload).Success?
                                       then [LoginEvent(false, EventUser(old(users), payload), filtered)] else [])
    {
      var userId := GetUserID(users, payload);
      if userId.Failure? {
        stalls := stalls + 1;
        return Failure(userId.error);
      }
      var user := FindById(users, userId.value);
      if user.None? || user.value.status != Active {
        events := events + [LoginEvent(false, EventUser(users, payload), filtered)];
        stalls := stalls + 1;
        if user.Some? && user.value.status == Suspended {
          return Failure(UserSuspended);
        } else {
          return Failure(InvalidCredentials);
        }
      }
      r := Success(user.value);
    }

    /** Attempt accounting: when limiting is on, consume one point; when the
        limiter refuses, suspend the user and reset the counter, and go on. */
    method ConsumeAttempt(user: User, allowedAttempts: Option<int>) returns (user': User)
      modifies this, limiter
      ensures sessions == old(sessions) && events == old(events) && stalls == old(stalls)
      ensures var rejected := allowedAttempts.Some? && Rejects(CountIn(old(limiter.consumed), user.id), allowedAttempts.value);
              && user' == (if rejected then user.(status := Suspended) else user)
              && users == (if rejected then SetStatus(old(users), user.id, Suspended) else old(users))
              && limiter.points == (if allowedAttempts.Some? then allowedAttempts.value else old(limiter.points))
              && limiter.consumed == (if allowedAttempts.Some?
                                      then old(limiter.consumed)[user.id := AfterConsume(CountIn(old(limiter.consumed), user.id), allowedAttempts.value)]
                                      else old(limiter.consumed))
    {
      user' := user;
      if allowedAttempts.Some? {
        limiter.points := allowedAttempts.value;
        var ok := limiter.Consume(user.id);
        if !ok {
          users := SetStatus(users, user.id, Suspended);
          user' := user.(status := Suspended);
          limiter.Set(user.id, 0);
        }
      }
    }

    /** The gate, then attempt accounting: the part both entry points share. On a
        refusal the stall happens here; on a pass nothing has stalled yet. */
    method Admit(payload: Payload, filtered: Payload, allowedAttempts: Option<int>)
      returns (r: Result<User, Error>)
      modifies this, limiter
      ensures sessions == old(sessions)
      ensures Gate(old(users), payload).Failure? ==>
                && r == Failure(Gate(old(users), payload).error)
                && users == old(users) && stalls == old(stalls) + 1
                && limiter.points == old(limiter.points) && limiter.consumed == old(limiter.consumed)
                && events == old(events) + (if GetUserID(old(users), payload).Failure? then []
                                            else [LoginEvent(false, EventUser(old(users), payload), filtered)])
      ensures Gate(old(users), payload).Success? ==>
                var u := Gate(old(users), payload).value;
                var c := CountIn(old(limiter.consumed), u.id);
                var rejected := allowedAttempts.Some? && Rejects(c, allowedAttempts.value);
                && r == Success(if rejected then u.(status := Suspended) else u)
                && users == (if rejected then SetStatus(old(users), u.id, Suspended) else old(users))
                && events == old(events) && stalls == old(stalls)
                && limiter.points == (if allowedAttempts.Some? then allowedAttempts.value else old(limiter.points))
                && limiter.consumed == (if allowedAttempts.Some?
                                        then old(limiter.consumed)[u.id := AfterConsume(c, allowedAttempts.value)]
                                        else old(limiter.consumed))
    {
      var gate := ResolveActiveUser(payload, filtered);
      if gate.Failure? {
        return Failure(gate.error);
      }
      var user := ConsumeAttempt(gate.value, allowedAttempts);
      r := Success(user);
    }

    /** loginRequest: the gate, then attempt accounting, then (limiting on) a reset
        of the counter, so an active user always leaves it at 0, even when this
        very call suspended them. Returns the loaded user. */
    method LoginRequest(payload: Payload, filtered: Payload, allowedAttempts: Option<int>)
      returns (r: Result<User, Error>)
      modifies this, limiter
      ensures sessions == old(sessions)
      ensures stalls == old(stalls) + 1
      ensures Gate(old(users), payload).Failure? ==>
                && r == Failure(Gate(old(users), payload).error)
                && users == old(users)
                && limiter.points == old(limiter.points) && limiter.consumed == old(limiter.consumed)
                && events == old(events) + (if GetUserID(old(users), payload).Failure? then []
                                            else [LoginEvent(false, EventUser(old(users), payload), filtered)])
      ensures Gate(old(users), payload).Success? ==>
                var u := Gate(old(users), payload).value;
                var rejected := allowedAttempts.Some? && Rejects(CountIn(old(limiter.consumed), u.id), allowedAttempts.value);
                && r == Success(if rejected then u.(status := Suspended) else u)
                && users == (if rejected then SetStatus(old(users), u.id, Suspended) else old(users))
                && limiter.points == (if allowedAttempts.Some? then allowedAttempts.value else old(limiter.points))
                && limiter.consumed == (if allowedAttempts.Some? then old(limiter.consumed)[u.id := 0]
                                        else old(limiter.consumed))
                && events == old(events) + [LoginEvent(true, Some(u.id), filtered)]
    {
      r := Admit(payload, filtered, allowedAttempts);
      if r.Failure? {
        return;
      }
      events := events + [LoginEvent(true, Some(r.value.id), filtered)];
      if allowedAttempts.Some? {
        limiter.Set(r.value.id, 0);
      }
      stalls := stalls + 1;
    }

    /** login: the gate, attempt accounting, then the provider's code check. On a
        refused code the error propagates and the counter keeps its increment; on
        success every session of the user is replaced by the new one, last_access
        is set, the counter (limiting on) is reset, and the tokens are returned. */
    method Login(payload: Payload, filtered: Payload, allowedAttempts: Option<int>, now: int,
                 accessToken: string, refreshToken: RefreshToken)
      returns (r: Result<LoginResult, Error>, ghost picked: Option<nat>)
      requires Valid()
      modifies this, limiter, provider.verifications
      ensures Valid()
      ensures stalls == old(stalls) + 1
      ensures provider.verifications.outbox == old(provider.verifications.outbox)
      ensures Gate(old(users), payload).Failure? ==>
                && r == Failure(Gate(old(users), payload).error)
                && users == old(users) && sessions == old(sessions)
                && limiter.points == old(limiter.points) && limiter.consumed == old(limiter.consumed)
                && provider.verifications.rows == old(provider.verifications.rows)
                && events == old(events) + (if GetUserID(old(users), payload).Failure? then []
                                            else [LoginEvent(false, EventUser(old(users), payload), filtered)])
      ensures Gate(old(users), payload).Success? ==>
                var u := Gate(old(users), payload).value;
                var c := CountIn(old(limiter.consumed), u.id);
                var rejected := allowedAttempts.Some? && Rejects(c, allowedAttempts.value);
                var gated := if rejected then SetStatus(old(users), u.id, Suspended) else old(users);
                && VerifyStep(old(provider.verifications.rows), provider.verifications.rows, u.id,
                              LoginCarrier, LoginSubject, filtered.otp, now,
                              if r.Success? then Pass else Fail(r.error), picked)
                && limiter.points == (if allowedAttempts.Some? then allowedAttempts.value else old(limiter.points))
                && (r.Failure? ==>
                      && users == gated && sessions == old(sessions)
                      && limiter.consumed == (if allowedAttempts.Some?
                                              then old(limiter.consumed)[u.id := AfterConsume(c, allowedAttempts.value)]
                                              else old(limiter.consumed))
                      && events == old(events) + [LoginEvent(false, Some(u.id), filtered)])
                && (r.Success? ==>
                      && r.value == LoginResult(accessToken, refreshToken, config.accessTokenTtl, u.id)
                      && sessions == WithoutUser(old(sessions), u.id)
                                     + [Session(refreshToken, u.id, now + config.refreshTokenTtl, RequestIp(), RequestUserAgent())]
                      && users == SetLastAccess(gated, u.id, now)
                      && limiter.consumed == (if allowedAttempts.Some? then old(limiter.consumed)[u.id := 0]
                                              else old(limiter.consumed))
                      && events == old(events) + [LoginEvent(true, Some(u.id), filtered)])
    {
      var admitted := Admit(payload, filtered, allowedAttempts);
      if admitted.Failure? {
        return Failure(admitted.error), None;
      }
      var user := admitted.value;
      var verdict;
      verdict, picked := provider.Login(user, filtered, now);
      if verdict.Fail? {
        events := events + [LoginEvent(false, Some(user.id), filtered)];
        stalls := stalls + 1;
        return Failure(verdict.error), picked;
      }
      var result := CompleteLogin(user, filtered, allowedAttempts, now, accessToken, refreshToken);
      r := Success(result);
    }

    /** The success path of login: session replacement, last_access, the
        success event, the counter reset (limiting on), the stall. */
    method CompleteLogin(user: User, filtered: Payload, allowedAttempts: Option<int>, now: int,
                         accessToken: string, refreshToken: RefreshToken)
      returns (result: LoginResult)
      modifies this, limiter
      ensures result == LoginResult(accessToken, refreshToken, config.accessTokenTtl, user.id)
      ensures sessions == WithoutUser(old(sessions), user.id)
                          + [Session(refreshToken, user.id, now + config.refreshTokenTtl, RequestIp(), RequestUserAgent())]
      ensures users == SetLastAccess(old(users), user.id, now)
      ensures events == old(events) + [LoginEvent(true, Some(user.id), filtered)]
      ensures stalls == old(stalls) + 1
      ensures limiter.points == old(limiter.points)
      ensures limiter.consumed == if allowedAttempts.Some? then old(limiter.consumed)[user.id := 0] else old(limiter.consumed)
    {
      sessions := WithoutUser(sessions, user.id)
                  + [Session(refreshToken, user.id, now + config.refreshTokenTtl, RequestIp(), RequestUserAgent())];
      users := SetLastAccess(users, user.id, now);
      events := events + [LoginEvent(true, Some(user.id), filtered)];
      if allowedAttempts.Some? {
        limiter.Set(user.id, 0);
      }
      stalls := stalls + 1;
      result := LoginResult(accessToken, refreshToken, config.accessTokenTtl, user.id);
    }

    /** The request route: loginRequest, then the provider's request with type
        "email" and the caller's ip. A refused gate issues nothing. */
    method RequestChallenge(payload: Payload, filtered: Payload, allowedAttempts: Option<int>,
                            code: Code, id: string, now: int)
      returns (r: Outcome<Error>)
      requires Valid()
      modifies this, limiter, provider.verifications
      ensures Valid()
      ensures sessions == old(sessions) && stalls == old(stalls) + 1
      ensures Gate(old(users), payload).Failure? ==>
                && r == Fail(Gate(old(users), payload).error)
                && users == old(users)
                && limiter.points == old(limiter.points) && limiter.consumed == old(limiter.consumed)
                && events == old(events) + (if GetUserID(old(users), payload).Failure? then []
                                            else [LoginEvent(false, EventUser(old(users), payload), filtered)])
                && provider.verifications.rows == old(provider.verifications.rows)
                && provider.verifications.outbox == old(provider.verifications.outbox)
      ensures Gate(old(users), payload).Success? ==>
                var u := Gate(old(users), payload).value;
                var rejected := allowedAttempts.Some? && Rejects(CountIn(old(limiter.consumed), u.id), allowedAttempts.value);
                && users == (if rejected then SetStatus(old(users), u.id, Suspended) else old(users))
                && limiter.points == (if allowedAttempts.Some? then allowedAttempts.value else old(limiter.points))
                && limiter.consumed == (if allowedAttempts.Some? then old(limiter.consumed)[u.id := 0]
                                        else old(limiter.consumed))
                && events == old(events) + [LoginEvent(true, Some(u.id), filtered)]
                && (r.Pass? <==> id !in Ids(old(provider.verifications.rows)))
                && (r.Fail? ==> r.error == DuplicateKey)
                && provider.verifications.outbox == old(provider.verifications.outbox)
                   + MailFor(RequestDraft(RequestIp(), u.id, LoginCarrier, LoginSubject, u.email, code, now, config.otpTtl))
                && provider.verifications.rows ==
                   (if r.Pass? then IssuedRows(old(provider.verifications.rows), u, RequestIp(), code, id, now, config.otpTtl)
                    else Stamp(old(provider.verifications.rows), ByRequester(DefaultIp(RequestIp()), u.id), now))
    {
      var user := LoginRequest(payload, filtered, allowedAttempts);
      if user.Failure? {
        return Fail(user.error);
      }
      r := provider.Request(user.value, RequestIp(), "email", code, id, now, config.otpTtl);
    }
  }
}
