/** The session cache of the storefront: who is logged in, and whether the
    first check is still pending. Every server call is an input: the
    response it produced, or the error it threw. */
module Auth {
  import opened Common

  /** The user object the account endpoints return. */
  datatype User = User(id: int, username: string, email: string)

  /** `/account/api/check-auth`: `authenticated` with a user, not
      authenticated, or a thrown error. */
  datatype CheckResponse = Authenticated(user: User) | NotAuthenticated | CheckFailed

  /** `/account/api/login`: `success` with the user and a message, a body
      without `success`, or a thrown error carrying the body's `error`. */
  datatype LoginResponse = LoginOk(user: User, message: Option<string>) | LoginNotOk | LoginError(error: Option<string>)

  /** `/account/api/register`: like login, but a success carries no user and
      an error may carry per-field errors. */
  datatype RegisterResponse =
    | RegisterOk(message: Option<string>)
    | RegisterNotOk
    | RegisterError(error: Option<string>, errors: Option<map<string, seq<string>>>)

  /** `/account/api/logout`: `success`, a body without it, or a thrown error. */
  datatype LogoutResponse = LogoutOk | LogoutNotOk | LogoutError

  /** What `login` and `register` resolve to; `errors` only on a failed
      registration. */
  datatype Outcome = Outcome(success: bool, message: Option<string>, errors: Option<map<string, seq<string>>>)

  class Session {
    var user: Option<User>
    var loading: bool

    /** Nobody is known and the first check is pending. */
    constructor ()
      ensures user.None? && loading
    {
      user, loading := None, true;
    }

    /** `checkAuth`: only an authenticated response changes the user; the
        pending flag always ends down. */
    method CheckAuth(response: CheckResponse)
      modifies this
      ensures !loading
      ensures response.Authenticated? ==> user == Some(response.user)
      ensures !response.Authenticated? ==> user == old(user)
    {
      if response.Authenticated? {
        user := Some(response.user);
      }
      loading := false;
    }

    /** `login`: a success stores the user; an error reports the server's
        message or `Login failed` and keeps the user. A body without
        `success` resolves to nothing at all. */
    method Login(response: LoginResponse) returns (result: Option<Outcome>)
      modifies this`user
      ensures response.LoginOk? ==>
        user == Some(response.user) && result == Some(Outcome(true, response.message, None))
      ensures response.LoginNotOk? ==> user == old(user) && result.None?
      ensures response.LoginError? ==>
        user == old(user) &&
        result == Some(Outcome(false, Some(OrDefault(response.error, "Login failed")), None))
    {
      match response {
        case LoginOk(u, message) =>
          user := Some(u);
          result := Some(Outcome(true, message, None));
        case LoginNotOk =>
          result := None;
        case LoginError(error) =>
          result := Some(Outcome(false, Some(OrDefault(error, "Login failed")), None));
      }
    }

    /** `register`: never logs anybody in (the new account still has to be
        verified); an error reports the message or `Registration failed`
        together with the field errors. */
    method Register(response: RegisterResponse) returns (result: Option<Outcome>)
      ensures response.RegisterOk? ==> result == Some(Outcome(true, response.message, None))
      ensures response.RegisterNotOk? ==> result.None?
      ensures response.RegisterError? ==>
        result == Some(Outcome(false, Some(OrDefault(response.error, "Registration failed")), response.errors))
    {
      match response {
        case RegisterOk(message) =>
          result := Some(Outcome(true, message, None));
        case RegisterNotOk =>
          result := None;
        case RegisterError(error, errors) =>
          result := Some(Outcome(false, Some(OrDefault(error, "Registration failed")), errors));
      }
    }

    /** `logout`: a success clears the user and then re-checks the session
        with `recheck`; an error clears the user too; a body without
        `success` changes nothing. */
    method Logout(response: LogoutResponse, recheck: CheckResponse)
      modifies this
      ensures response.LogoutOk? ==>
        !loading && user == (if recheck.Authenticated? then Some(recheck.user) else None)
      ensures response.LogoutNotOk? ==> user == old(user) && loading == old(loading)
      ensures response.LogoutError? ==> user.None? && loading == old(loading)
    {
      match response {
        case LogoutOk =>
          user := None;
          CheckAuth(recheck);
        case LogoutNotOk =>
        case LogoutError =>
          user := None;
      }
    }
  }
}
