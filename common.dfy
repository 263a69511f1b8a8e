/** Shared values of the OTP login core: option, result and outcome types, the error
    classes the services throw, and the user and login-payload records. */
module Common {

  datatype Option<+T> = None | Some(value: T)

  datatype Result<+R, +E> = Success(value: R) | Failure(error: E)

  /** Pass or Fail: the outcome of an async operation that returns nothing or throws. */
  datatype Outcome<+E> = Pass | Fail(error: E)

  /** The error classes thrown along the login path. */
  datatype Error =
    | InvalidCredentials   // InvalidCredentialsError: unknown e-mail, or a user that is not active
    | UserSuspended        // UserSuspendedError
    | InvalidOtp           // InvalidOtpError: wrong or expired code
    | UnexpectedResponse   // UnexpectedResponseError: no unconsumed challenge found
    | DuplicateKey         // the store refuses a row whose primary key already exists

  /** JavaScript truthiness of an optional string: absent and "" are falsy. */
  predicate Truthy(s: Option<string>) {
    s.Some? && s.value != ""
  }

  /** Values of directus_users.status. */
  datatype Status = Active | Suspended | Draft | Invited | Archived

  /** The columns of directus_users that the core reads or writes. */
  datatype User = User(id: string, email: Option<string>, status: Status, lastAccess: Option<int>)

  /** The fields of a login or request body that the core reads. */
  datatype Payload = Payload(email: Option<string>, otp: Option<string>)

  /** The caller's request context (ip and user agent). */
  datatype Accountability = Accountability(ip: Option<string>, userAgent: Option<string>)
}
