# OTP login core of datacore-directus, modelled in Dafny

This project models the one-time-password login of the repository's `__mv`
extension to Directus. It covers three tables and one counter map:

- `directus_verifications`: the challenge records.
- `directus_users`: only `id`, `email`, `status` and `last_access`.
- `directus_sessions`: the refresh-token sessions.
- the process-wide login-attempts limiter: a per-user counter.

It has four modules, one file each:

- `common.dfy` (`Common`): the `Option`, `Result` and `Outcome` datatypes for absent values and errors. Also the error classes the services throw (`InvalidCredentials`, `UserSuspended`, `InvalidOtp`, `UnexpectedResponse`, plus `DuplicateKey` for a primary-key clash in the store) and the user, payload and accountability records.
- `verifications.dfy` (`Verifications`): `VerificationsService`, a class whose `rows: seq<Verification>` is the table and whose ghost `outbox` records what is handed to the mail service. Pure functions over the table (`Stamp`, `Pending`, `Check`, `Consume`, `VerifyStep`) specify the methods. The lemmas about the challenge lifecycle are stated over them.
- `otp_driver.dfy` (`OtpDriver`): `GetUserID` as a pure lookup over the users table, and the class `OtpAuthDriver`, whose methods drive the verification store. Codes are issued and checked under `("email", "Request Login")`.
- `authentication.dfy` (`Authentication`): the class `LoginAttemptsLimiter` and the class `MVAuthenticationService` with `LoginRequest`, `Login` and the request route's composition `RequestChallenge`.

Foreign values are method parameters:

- the clock (`now`, in milliseconds)
- the random 4-character code (`Code`)
- the uuid of a new challenge
- the signed JWT (`accessToken`)
- the 64-character nanoid refresh token (`RefreshToken`)
- the TTLs, already converted by `ms` (`Config`)
- the `auth_login_attempts` setting (`allowedAttempts`, `None` for null)
- the payload the `auth.login` filter hooks return (`filtered`)

`auth.login` actions go to a ghost `events` log. Each `stall` call increments a ghost `stalls` counter, so every exit path of both entry points is shown to stall exactly once.

Behaviour the model keeps from the code:

- `verify`'s query has `limit: 1` and no sort. The model picks some candidate row nondeterministically; `picked` is a ghost out-parameter.
- A `null` in `expires` is read as the epoch (`new Date(null)`), so such a row counts as expired.
- Token and code are compared with JavaScript's loose `!=` on optional strings, so an absent token matches an absent code.
- Revocation is scoped to (ip, user). While the user has an unconsumed login challenge that another ip requested, `verify` may pick that row, so a freshly issued correct code can be refused. The round-trip lemmas (`IssuedCodeVerifies`, `SupersededCodeRejected`) therefore assume no such challenge is pending.
- `createOne` sends the mail before inserting. The mail therefore goes out even when the insert is refused.
- When the limiter refuses, the user is suspended and the counter reset, but `login` still runs the code check. A correct code then still opens a session on that same attempt.
- When `auth_login_attempts` is non-null, `loginRequest` resets the counter of every active user it passes (`authentication.ts:145`). So each code request clears the failed attempts counted so far: a user who sends a code request after at most `points - 1` failed guesses is never suspended, however often that is repeated. With the setting null the counter is not touched.

Further points where the model follows the code exactly:

- Revocation re-stamps `used_at` on already-used rows as well (`verification.ts:102-113`), since its filter does not mention `used_at`.
- A code is accepted when `expires == now`. Only `expires < now` is refused (`verification.ts:94`).
- Verification picks an unspecified candidate; nothing makes it the most recent one.
- Only a null `auth_login_attempts` turns limiting off. A value of 0 suspends on every limited attempt (`authentication.ts:129`, `251`).
- The limiter refuses a consume once the new count *exceeds* `points`, as the rate-limiter library does; reaching `points` is still allowed. So with `points = 3`, the fourth consecutive failure suspends (`LockoutThreshold`), and the next attempt is refused by the status gate with UserSuspended before it reaches the limiter (`SuspendedIsLockedOut`).

## Model

| member | source | states |
|---|---|---|
| `Verifications.Check` | api/src/__mv/services/verification.ts:89-97 | a found row accepts the code iff the token equals it and `now <= expires` (equality accepted); every refusal is InvalidOtp, and a wrong code is refused whatever the expiry |
| `Verifications.StampKeepsIds` | api/src/__mv/services/verification.ts:102-113 | an update of `used_at` keeps the table's length and primary keys, and their uniqueness |
| `Verifications.UpdateByIdIsConsume` | api/src/__mv/services/verification.ts:99 | with a unique primary key, `updateOne(id)` (update where id = key) stamps exactly the matched row and nothing else |
| `Verifications.StoredIpIsRevocationKey` | api/src/__mv/services/verification.ts:32 | a row stored without an ip is keyed "system", and a later revocation with the same ip (line 106 uses the same default) always reaches it |
| `Verifications.RequestLeavesSingleUnconsumed` | api/src/__mv/services/verification.ts:57-68 | after revoke-then-insert, the new record is the only row of that (ip, user) with a null `used_at` |
| `Verifications.ConsumeRemovesOnlyPicked` | api/src/__mv/services/verification.ts:72-99 | a successful verify removes exactly the picked row from the unconsumed candidates of (user, carrier, subject) |
| `Verifications.RepeatedVerifyNotFound` | api/src/__mv/services/verification.ts:72-87 | when the consumed row was the only candidate, any repeated verify fails as not-found and changes nothing |
| `Verifications.WrongCodeKeepsChallenge` | api/src/__mv/services/verification.ts:89-99 | with row k the only candidate, a wrong code fails with InvalidOtp and changes nothing; the right code then still succeeds up to the expiry and consumes that row |
| `Verifications.IssuedCodeVerifies` | api/src/__mv/services/verification.ts:41-100 | round trip: after `request`, the new row is the only candidate and its code is accepted (and the row consumed) until its expiry, provided the user has no unconsumed challenge for the pair from another ip |
| `Verifications.RequestKeepsOnlyFrom` | api/src/__mv/services/verification.ts:57-68 | a request from (ip, user) keeps every unconsumed challenge of the user for the pair coming from that ip, so the round trip's precondition holds again after it |
| `Verifications.SupersededCodeRejected` | api/src/__mv/services/verification.ts:57-99 | with no other-ip challenge of the user for the pair pending, issuing A then B from the same (ip, user) revokes A: A's code (when it differs from B's) is refused with InvalidOtp and consumes nothing, while B's code is accepted until B expires and consumes B's row |
| `Verifications.VerificationsService.constructor` | api/src/__mv/services/verification.ts:14-18 | the service starts over the given table (unique keys) with an empty outbox |
| `Verifications.VerificationsService.UpdateUsedAt` | api/src/__mv/services/verification.ts:103-112 | stamps `used_at = now` in place on every row the filter selects, leaves the rest unchanged, and returns the selected keys in order |
| `Verifications.VerificationsService.UpdateOne` | api/src/__mv/services/verification.ts:36-39 | updates through "where id = key" and returns the key |
| `Verifications.VerificationsService.RevokeAllCurrentRequest` | api/src/__mv/services/verification.ts:102-113 | every row with ip (default "system") and user matching is stamped, used rows included; every other row is unchanged; returns their keys |
| `Verifications.VerificationsService.SendEmail` | api/src/__mv/services/verification.ts:115-128 | hands the e-mail-verification template with the token to the recipient and subject exactly when the recipient is truthy; the table is unchanged |
| `Verifications.VerificationsService.CreateOne` | api/src/__mv/services/verification.ts:20-34 | mails for carrier "email" only, then appends the row with the new uuid, ip defaulted to "system" and `used_at` null; refuses a taken key (DuplicateKey) after the mail |
| `Verifications.VerificationsService.Request` | api/src/__mv/services/verification.ts:41-69 | revokes every row of (ip, user) first, then inserts user, recipient, ip, type = carrier, token = code, subject and `expires = now + ttl` |
| `Verifications.VerificationsService.Verify` | api/src/__mv/services/verification.ts:71-100 | not-found and no change without an unconsumed match; otherwise checks some matching row: wrong or expired code fails with InvalidOtp and changes nothing, else exactly that row is stamped |
| `OtpDriver.FindByEmailCorrect` | api/src/__mv/auth/drivers/otp.ts:23-27 | returns some user id whose e-mail equals the given one case-insensitively, or none exactly when no user's e-mail matches |
| `OtpDriver.GetUserIDCorrect` | api/src/__mv/auth/drivers/otp.ts:18-34 | InvalidCredentials for a missing or empty e-mail or one no user has; otherwise the id of a user with that e-mail, compared case-insensitively |
| `OtpDriver.FindByEmailIgnoresCase` | api/src/__mv/auth/drivers/otp.ts:26 | the lookup depends on the e-mail only through its lower-cased form |
| `OtpDriver.GetUserIDIgnoresCase` | api/src/__mv/auth/drivers/otp.ts:18-33 | two payloads whose e-mails agree after lower-casing resolve to the same result |
| `OtpDriver.RequestedCodeLogsIn` | api/src/__mv/auth/drivers/otp.ts:44-62 | issue and check use the same (carrier, subject): the code `request` issued is accepted by `login` until expiry and consumes the new row (no other-ip challenge pending) |
| `OtpDriver.OtpAuthDriver.constructor` | api/src/__mv/auth/drivers/otp.ts:46-49 | binds the one verification table that the per-call `new VerificationsService({ knex, schema })` here and at lines 56-59 reaches |
| `OtpDriver.OtpAuthDriver.ValidateVerification` | api/src/__mv/auth/drivers/otp.ts:55-62 | exactly one verify against ("email", "Request Login") for the user, with its outcome |
| `OtpDriver.OtpAuthDriver.Verify` | api/src/__mv/auth/drivers/otp.ts:36-38 | validates the code for `user.id` |
| `OtpDriver.OtpAuthDriver.Login` | api/src/__mv/auth/drivers/otp.ts:40-42 | succeeds iff verify of `payload.otp` for ("email", "Request Login") succeeds, and propagates its error otherwise |
| `OtpDriver.OtpAuthDriver.Request` | api/src/__mv/auth/drivers/otp.ts:44-53 | type "email": issues a "Request Login" challenge to `user.email` (revoke, insert, mail); any other type changes nothing |
| `Authentication.LockoutThreshold` | api/src/__mv/services/authentication.ts:251-263 | consecutive failed logins from counter c count up to `points` without suspending; the one that exceeds `points` suspends and leaves the counter at 0. The run stops there because the next attempt is refused at the gate (`SuspendedIsLockedOut`), where `Login` changes neither the counter nor the users |
| `Authentication.LoginAttemptsLimiter.constructor` | api/src/__mv/services/authentication.ts:20 | the limiter starts with no consumed points |
| `Authentication.LoginAttemptsLimiter.Consume` | api/src/__mv/services/authentication.ts:255 | adds one consumed point for the key and is refused exactly when the new count exceeds `points` |
| `Authentication.LoginAttemptsLimiter.Set` | api/src/__mv/services/authentication.ts:261 | sets the key's count, leaving the other keys and `points` unchanged |
| `Authentication.FindByIdCorrect` | api/src/__mv/services/authentication.ts:177-196 | returns a user with the id, or none exactly when no user has it |
| `Authentication.GateCorrect` | api/src/__mv/services/authentication.ts:230-240 | passes only an active user found by identity resolution, and every active loaded user passes; UserSuspended exactly for a suspended loaded user; otherwise InvalidCredentials, and identity failures always give InvalidCredentials |
| `Authentication.FindByEmailKeepsUnderUpdates` | api/src/__mv/services/authentication.ts:257 | the status update here and the last_access update of line 328 leave the e-mail lookup unchanged |
| `Authentication.FindByIdUnderUpdates` | api/src/__mv/services/authentication.ts:257 | after the status update here or the last_access update of line 328, loading by id gives the old row with the new value for the updated user and the old row otherwise |
| `Authentication.SuspendedIsLockedOut` | api/src/__mv/services/authentication.ts:227-240 | a user the limiter suspended is refused with UserSuspended by the gate of the next attempt with any payload that loads them (another casing of the e-mail, say), whether or not the suspending login went on to set `last_access` |
| `Authentication.PassedUserIsLoaded` | api/src/__mv/services/authentication.ts:177-240 | the user a passing gate returns is the row its payload loads, so the lockout covers the same payload's next attempt |
| `Authentication.SingleSessionAfterLogin` | api/src/__mv/services/authentication.ts:304-313 | after delete-all-then-insert the user has exactly the new session and every other user's sessions are unchanged |
| `Authentication.MVAuthenticationService.constructor` | api/src/__mv/services/authentication.ts:28-33 | the service starts over the given tables, provider (its store key-unique), shared limiter and accountability, with empty ghost logs |
| `Authentication.MVAuthenticationService.ResolveActiveUser` | api/src/__mv/services/authentication.ts:168-240 | result is the gate's; nothing is written; a refusal stalls, and emits a fail event only after identity resolution succeeded |
| `Authentication.MVAuthenticationService.ConsumeAttempt` | api/src/__mv/services/authentication.ts:251-263 | limiting on: `points` set and one point consumed; on refusal the stored and local status become suspended and the counter 0; limiting off: nothing changes |
| `Authentication.MVAuthenticationService.Admit` | api/src/__mv/services/authentication.ts:168-263 | the part both entry points share: a gate refusal stalls and writes nothing but the fail event; an active user is returned after attempt accounting (suspended, counter 0, when the limiter refused), without a stall yet |
| `Authentication.MVAuthenticationService.LoginRequest` | api/src/__mv/services/authentication.ts:41-152 | gate refusals rethrow and write nothing; an active user is returned (suspended if the limiter refused in this call) with the counter left at 0 when limiting is on; one stall on every path |
| `Authentication.MVAuthenticationService.Login` | api/src/__mv/services/authentication.ts:160-343 | gate refusals write nothing; otherwise succeeds iff the provider's verify succeeds; failure keeps the counter's increment and leaves sessions and `last_access`; success replaces the user's sessions by one with `expires = now + refresh TTL`, sets `last_access`, resets the counter when limiting is on and returns the user id and access TTL |
| `Authentication.MVAuthenticationService.CompleteLogin` | api/src/__mv/services/authentication.ts:301-342 | the success path: session replacement, `last_access`, success event, counter reset when limiting is on, and the result |
| `Authentication.MVAuthenticationService.RequestChallenge` | api/src/__mv/auth/drivers/otp.ts:153-156 | loginRequest then the provider's e-mail request with the caller's ip: a refused gate issues nothing and logs loginRequest's fail event; otherwise the challenge is issued to the returned user even when that call suspended them, with loginRequest's success event, and `points` set and the counter reset when limiting is on |

## Left out

- The Express router (`createOtpAuthRouter`) is left out: Joi validation, cookie or json response mode, and ip and user-agent extraction. Only its composition of `loginRequest` and `request` is modelled (`RequestChallenge`).
- Stalling is wall-clock timing and cannot be verified. It is only counted (ghost `stalls`). `utils/stall.js` is not part of this model.
- JWT signing and the `auth.jwt` claims filter are left out. The signed token is an input.
- `nanoid`, `uuidv4`, `generateRandomString` and `ms` are left out. Their results are inputs. The subset types `Code` (4 characters) and `RefreshToken` (64 characters) carry their length contracts, but not their randomness or uniqueness.
- The rate-limiter library (`rate-limiter.js`) is not part of this model. The limiter is a counter map that refuses a consume once the count exceeds `points`. Store errors, which the `catch` also swallows, are not modelled.
- `emitFilter` is left out. The payload its hooks return is an input (`filtered`), so it may be any payload; its meta and context arguments are not modelled.
- A throwing `auth.login` filter hook is not modelled. In the code it aborts `loginRequest` or `login` after the user load and before the status gate, with no event and no stall (`authentication.ts:76`, `198`).
- `emitAction` is only logged, as ghost events.
- `MailService.send` is left out: only the message handed to it is recorded. A failing send, which would abort the issuing call, is not modelled.
- The `ActivityService` login record is not modelled. It is a foreign side effect.
- Revocation is modelled as reaching every matching row. The read defaults `ItemsService.updateByQuery` applies when it collects the keys to update (such as a default query limit) are not modelled.
- Knex, `ItemsService` hooks and permissions, and the join with roles are left out. The `directus_sessions` and `directus_users` tables are plain sequences.
- The only storage failure modelled is the primary-key clash on inserting a challenge.
- Concurrency is left out: two logins or two requests of the same user are not interleaved.
- Each `MVAuthenticationService` owns its `users` and `sessions`, while the limiter and the verification store are shared objects. The router builds a new service per request (`otp.ts:91`, `141`), and in the code all of them reach the same tables. To compose two requests with different accountability, the second service has to be built over the first one's `users` and `sessions`; the model does not tie them together.
- The database clock (`knex.fn.now()`, `new Date()`) and `Date.now()` are one `now` parameter.
- `OtpDriver.FindByEmail`: an e-mail that several users share up to case resolves to the first such row in table order, while the source's unordered `.first()` (`otp.ts:23-27`) may return any of them on any call. So `GetUserIDIgnoresCase` and `SuspendedIsLockedOut` carry over to the source only when e-mails are unique up to case. `FindByEmailCorrect` promises only some matching user.
- Lower-casing covers ASCII letters only. Unicode case mapping is not modelled.
- `payload.otp` is an optional string. JavaScript's loose equality between a number and a string is not modelled.
- The nullable `user` column (SET NULL on user deletion) is not modelled. User deletion is outside the core.
- `getAuthProvider` dispatch is fixed to the OTP driver. `DEFAULT_AUTH_PROVIDER` and the other drivers are not part of this model.
