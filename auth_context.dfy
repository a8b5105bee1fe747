/**
 * The client's session state (`AuthProvider`): who is signed in, whether a
 * check is running, and the last error message. Each API call's outcome is
 * a parameter: a value, an `ApiError`, or another failure.
 */
module AuthContext {
  import opened Wrappers
  import Api

  datatype AuthState = AuthState(user: Option<Api.User>, isLoading: bool, error: Option<string>)

  /** The provider's state when it mounts: nobody signed in, loading, no error. */
  const Initial: AuthState := AuthState(None, true, None)

  const CheckFailed: string := "Failed to check authentication status"
  const BadCredentials: string := "Invalid email or password"
  const LoginFailed: string := "Login failed. Please try again."
  const NetworkError: string := "Network error. Please check your connection."
  const OutsideProvider: string := "useAuth must be used within an AuthProvider"

  /** `isAuthenticated`: a user is held. */
  predicate IsAuthenticated(s: AuthState) {
    s.user.Some?
  }

  /** Failures of the check that are reported: an `ApiError` other than 401. */
  predicate ReportedOnCheck(f: Api.Failure) {
    f.ApiError? && f.status != 401
  }

  /**
   * `checkAuthStatus`: the user `getMe` returns, with the error cleared; or
   * no user, with an error only for a reported failure. Loading ends.
   */
  function AfterCheck(s: AuthState, me: Result<Api.User, Api.Failure>): (r: AuthState)
    ensures !r.isLoading
    ensures me.Ok? ==> r.user == Some(me.value) && r.error.None?
    ensures me.Err? ==> r.user.None?
    ensures me.Err? && ReportedOnCheck(me.error) ==> r.error == Some(CheckFailed)
    ensures me.Err? && !ReportedOnCheck(me.error) ==> r.error == s.error
    ensures IsAuthenticated(r) <==> me.Ok?
  {
    match me
    case Ok(u) => AuthState(Some(u), false, None)
    case Err(f) => AuthState(None, false, if ReportedOnCheck(f) then Some(CheckFailed) else s.error)
  }

  /** The message `login` shows for a failure. */
  function LoginMessage(f: Api.Failure): (m: string)
    ensures f.ApiError? && f.status == 401 ==> m == BadCredentials
    ensures f.ApiError? && f.status != 401 ==> m == LoginFailed
    ensures !f.ApiError? ==> m == NetworkError
  {
    if f.ApiError? then (if f.status == 401 then BadCredentials else LoginFailed) else NetworkError
  }

  /**
   * `login`: the user is set only when both the login call and `getMe`
   * succeed; otherwise it is kept, the failure's message is shown and the
   * failure is re-thrown. `getMe` is not called after a failed login.
   */
  function AfterLogin(s: AuthState, login: Result<Api.TokenReply, Api.Failure>, me: Result<Api.User, Api.Failure>)
    : (r: (AuthState, Option<Api.Failure>))
    ensures !r.0.isLoading
    ensures r.1.None? <==> login.Ok? && me.Ok?
    ensures r.1.None? ==> r.0.user == Some(me.value) && r.0.error.None?
    ensures r.1.Some? ==> r.0.user == s.user && r.0.error == Some(LoginMessage(r.1.value))
    ensures login.Err? ==> r.1 == Some(login.error)
    ensures login.Ok? && me.Err? ==> r.1 == Some(me.error)
  {
    match login
    case Err(f) => (AuthState(s.user, false, Some(LoginMessage(f))), Some(f))
    case Ok(_) =>
      match me
      case Err(f) => (AuthState(s.user, false, Some(LoginMessage(f))), Some(f))
      case Ok(u) => (AuthState(Some(u), false, None), None)
  }

  /** `logout`: whatever the call does, nobody is signed in, no error, not loading. */
  function AfterLogout(s: AuthState): (r: AuthState)
    ensures r == AuthState(None, false, None)
    ensures !IsAuthenticated(r)
  {
    AuthState(None, false, None)
  }

  /** A failed login never changes who is signed in. */
  lemma FailedLoginKeepsSession(s: AuthState, login: Result<Api.TokenReply, Api.Failure>, me: Result<Api.User, Api.Failure>)
    requires login.Err? || me.Err?
    ensures IsAuthenticated(AfterLogin(s, login, me).0) <==> IsAuthenticated(s)
    ensures AfterLogin(s, login, me).0.user == s.user
  {
  }

  /** On first mount only a non-401 `ApiError` leaves a message; a 401 or a network failure leaves none. */
  lemma InitialCheckError(me: Result<Api.User, Api.Failure>)
    ensures AfterCheck(Initial, me).error.Some? <==> me.Err? && ReportedOnCheck(me.error)
  {
  }

  /** Re-running the check with the same outcome changes nothing. */
  lemma CheckIdempotent(s: AuthState, me: Result<Api.User, Api.Failure>)
    ensures AfterCheck(AfterCheck(s, me), me) == AfterCheck(s, me)
  {
  }

  /** `useAuth`: the context, or an error outside a provider. */
  function UseAuth(context: Option<AuthState>): (r: Result<AuthState, string>)
    ensures context.None? <==> r == Err(OutsideProvider)
    ensures context.Some? ==> r == Ok(context.value)
  {
    match context
    case None => Err(OutsideProvider)
    case Some(s) => Ok(s)
  }

  /** The provider's three state cells, changed through their setters. */
  class AuthProvider {
    var user: Option<Api.User>
    var isLoading: bool
    var error: Option<string>

    function State(): AuthState
      reads this
    {
      AuthState(user, isLoading, error)
    }

    constructor()
      ensures State() == Initial
    {
      user := None;
      isLoading := true;
      error := None;
    }

    predicate IsAuthenticated()
      reads this
    {
      user.Some?
    }

    method CheckAuthStatus(me: Result<Api.User, Api.Failure>)
      modifies this
      ensures State() == AfterCheck(old(State()), me)
      ensures IsAuthenticated() <==> me.Ok?
    {
      match me {
        case Ok(u) =>
          user := Some(u);
          error := None;
        case Err(f) =>
          user := None;
          if f.ApiError? && f.status != 401 {
            error := Some(CheckFailed);
          }
      }
      isLoading := false;
    }

    method Login(login: Result<Api.TokenReply, Api.Failure>, me: Result<Api.User, Api.Failure>)
      returns (thrown: Option<Api.Failure>)
      modifies this
      ensures (State(), thrown) == AfterLogin(old(State()), login, me)
    {
      isLoading := true;
      error := None;
      thrown := None;
      match login {
        case Err(f) =>
          thrown := Some(f);
        case Ok(_) =>
          match me {
            case Err(f) => thrown := Some(f);
            case Ok(u) => user := Some(u);
          }
      }
      if thrown.Some? {
        var f := thrown.value;
        if f.ApiError? {
          if f.status == 401 {
            error := Some(BadCredentials);
          } else {
            error := Some(LoginFailed);
          }
        } else {
          error := Some(NetworkError);
        }
      }
      isLoading := false;
    }

    /** The outcome of the logout call is swallowed. */
    method Logout(outcome: Result<(), Api.Failure>)
      modifies this
      ensures State() == AfterLogout(old(State()))
    {
      isLoading := true;
      user := None;
      error := None;
      isLoading := false;
    }
  }
}
