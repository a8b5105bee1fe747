/**
 * The backend's authentication helpers: token creation and verification,
 * token extraction from a request, and the three dependency gates that
 * turn a request into the caller's identity or an HTTP error. Signing and
 * checking a JWT is the library's business: its decoding is a parameter.
 */
module ServerAuth {
  import opened Wrappers
  import opened Values
  import Enums
  import Models
  import Text

  /** `ACCESS_TOKEN_EXPIRE_MINUTES`: thirty days. */
  const AccessTokenExpireMinutes: int := 30 * 24 * 60

  /** The default token lifetime, in seconds. */
  const DefaultLifetime: int := AccessTokenExpireMinutes * 60

  /** `AuthError`: a message and a status code that defaults to 401. */
  datatype AuthError = AuthError(message: string, statusCode: int := 401)

  /** `HTTPException(status_code, detail)`. */
  datatype HttpError = HttpError(status: int, detail: string)

  /** The claims a token is signed over; `exp` is the expiry instant in seconds. */
  datatype TokenPayload = TokenPayload(claims: map<string, Value>, exp: int)

  /** What decoding a token with the server's key reports. */
  datatype Decoded =
    | Valid(claims: map<string, Value>)
    | ExpiredSignature
    | Malformed

  /**
   * `create_access_token`: the caller's claims (its own dictionary is not
   * touched: the model works on values) plus an expiry `expires_delta`
   * seconds from `now`, or thirty days when no delta, or a zero delta, is
   * given.
   */
  function CreateAccessToken(data: map<string, Value>, expiresDelta: Option<int>, now: int): (p: TokenPayload)
    ensures p.claims == data - {"exp"}
    ensures (expiresDelta.None? || expiresDelta == Some(0)) ==> p.exp == now + 2592000
    ensures expiresDelta.Some? && expiresDelta.value != 0 ==> p.exp == now + expiresDelta.value
  {
    var expire := if expiresDelta.Some? && expiresDelta.value != 0 then now + expiresDelta.value
                  else now + DefaultLifetime;
    TokenPayload(data - {"exp"}, expire)
  }

  /** Why `verify_token` did not produce token data. */
  datatype VerifyFailure =
    | Rejected(error: AuthError)
    | Crashed   // an exception other than `AuthError` escapes: the server answers 500

  /** A claim read as an optional string, as `TokenData` validates it. */
  function ClaimString(v: Value): Result<Option<string>, ()>
  {
    match v
    case Null => Ok(None)
    case Str(s) => Ok(Some(s))
    case _ => Err(())
  }

  /**
   * `verify_token`: an expired token and a token that does not decode are
   * rejected with their own messages, a token without `sub` is invalid; a
   * falsy `role` gives no role, and a role outside the enumeration escapes
   * as an uncaught `ValueError`.
   */
  function VerifyToken(token: string, decode: string -> Decoded): (r: Result<Models.TokenData, VerifyFailure>)
    ensures decode(token).ExpiredSignature? ==> r == Err(Rejected(AuthError("Token has expired")))
    ensures decode(token).Malformed? ==> r == Err(Rejected(AuthError("Invalid token")))
    ensures decode(token).Valid? && Get(decode(token).claims, "sub") == Null ==>
      r == Err(Rejected(AuthError("Invalid token")))
    ensures r.Ok? ==> decode(token).Valid?
    ensures r.Ok? ==> var c := decode(token).claims;
      Get(c, "sub").Str? && r.value.userId == Some(Get(c, "sub").s)
      && (r.value.role.None? <==> !Truthy(Get(c, "role")))
      && (r.value.role.Some? ==> Get(c, "role") == Str(r.value.role.value.Name()))
    ensures r.Err? && r.error.Rejected? ==> r.error.error.statusCode == 401
  {
    match decode(token)
    case ExpiredSignature => Err(Rejected(AuthError("Token has expired")))
    case Malformed => Err(Rejected(AuthError("Invalid token")))
    case Valid(c) =>
      var sub := Get(c, "sub");
      var role := Get(c, "role");
      if sub == Null then Err(Rejected(AuthError("Invalid token")))
      else match (ClaimString(sub), ClaimString(Get(c, "email")))
        case (Ok(userId), Ok(email)) =>
          if !Truthy(role) then Ok(Models.TokenData(userId, email, None))
          else if role.Str? && Enums.ParseUserRole(role.s).Some? then
            Ok(Models.TokenData(userId, email, Enums.ParseUserRole(role.s)))
          else Err(Crashed)
        case _ => Err(Crashed)
  }

  const BearerPrefix: string := "Bearer "

  /** An `Authorization` header that selects the bearer scheme. */
  predicate IsBearerHeader(authorization: Option<string>) {
    authorization.Some? && Text.StartsWith(authorization.value, BearerPrefix)
  }

  /**
   * `t` is the word that follows "Bearer " in the header: the characters up
   * to the next space or the end.
   */
  predicate IsFirstWordAfterPrefix(t: string, header: string) {
    var n := |BearerPrefix|;
    n + |t| <= |header| && header[n..n + |t|] == t && ' ' !in t
    && (n + |t| == |header| || header[n + |t|] == ' ')
  }

  /**
   * `get_token_from_request`: a bearer `Authorization` header wins and
   * yields its second space-separated field; otherwise a non-empty
   * `access_token` cookie; otherwise nothing.
   */
  function GetTokenFromRequest(authorization: Option<string>, cookie: Option<string>): (r: Option<string>)
    ensures IsBearerHeader(authorization) ==> r.Some? && IsFirstWordAfterPrefix(r.value, authorization.value)
    ensures !IsBearerHeader(authorization) && cookie.Some? && cookie.value != "" ==> r == cookie
    ensures !IsBearerHeader(authorization) && (cookie.None? || cookie.value == "") ==> r.None?
  {
    if IsBearerHeader(authorization) then
      var h := authorization.value;
      assert h == "Bearer" + [' '] + h[|BearerPrefix|..];
      Text.SplitAfterWord("Bearer", ' ', h[|BearerPrefix|..]);
      Some(Text.Split(h, ' ')[1])
    else if cookie.Some? && cookie.value != "" then cookie
    else None
  }

  /** A bearer header decides the token whatever the cookie holds. */
  lemma HeaderBeatsCookie(authorization: Option<string>, cookie1: Option<string>, cookie2: Option<string>)
    requires IsBearerHeader(authorization)
    ensures GetTokenFromRequest(authorization, cookie1) == GetTokenFromRequest(authorization, cookie2)
  {
  }

  /**
   * `get_current_user`: no token, or an empty one, is "Not authenticated";
   * a rejected token is a 401 carrying the rejection's message.
   */
  function GetCurrentUser(authorization: Option<string>, cookie: Option<string>, decode: string -> Decoded)
    : (r: Result<Models.TokenData, HttpError>)
    ensures var t := GetTokenFromRequest(authorization, cookie);
      (t.None? || t == Some("")) ==> r == Err(HttpError(401, "Not authenticated"))
    ensures var t := GetTokenFromRequest(authorization, cookie);
      t.Some? && t.value != "" && VerifyToken(t.value, decode).Err? && VerifyToken(t.value, decode).error.Rejected? ==>
        r == Err(HttpError(401, VerifyToken(t.value, decode).error.error.message))
    ensures r.Ok? <==> (var t := GetTokenFromRequest(authorization, cookie);
      t.Some? && t.value != "" && VerifyToken(t.value, decode).Ok?)
    ensures r.Ok? ==> r.value.userId.Some?
  {
    match GetTokenFromRequest(authorization, cookie)
    case None => Err(HttpError(401, "Not authenticated"))
    case Some(t) =>
      if t == "" then Err(HttpError(401, "Not authenticated"))
      else match VerifyToken(t, decode)
        case Ok(data) => Ok(data)
        case Err(Rejected(e)) => Err(HttpError(401, e.message))
        case Err(Crashed) => Err(HttpError(500, "Internal Server Error"))
  }

  const CoachRequired: string := "Not enough permissions. Coach access required."
  const AthleteRequired: string := "Not enough permissions. Athlete access required."

  /** `get_current_coach`: an authenticated caller whose role is not coach gets 403. */
  function GetCurrentCoach(authorization: Option<string>, cookie: Option<string>, decode: string -> Decoded)
    : (r: Result<Models.TokenData, HttpError>)
    ensures r.Ok? <==> (var u := GetCurrentUser(authorization, cookie, decode);
      u.Ok? && u.value.role == Some(Enums.UserRole.Coach))
    ensures r.Ok? ==> r == GetCurrentUser(authorization, cookie, decode)
    ensures GetCurrentUser(authorization, cookie, decode).Err? ==> r == GetCurrentUser(authorization, cookie, decode)
    ensures GetCurrentUser(authorization, cookie, decode).Ok? && r.Err? ==> r.error == HttpError(403, CoachRequired)
  {
    match GetCurrentUser(authorization, cookie, decode)
    case Err(e) => Err(e)
    case Ok(user) =>
      if user.role != Some(Enums.UserRole.Coach) then Err(HttpError(403, CoachRequired)) else Ok(user)
  }

  /** `get_current_athlete`: an authenticated caller whose role is not athlete gets 403. */
  function GetCurrentAthlete(authorization: Option<string>, cookie: Option<string>, decode: string -> Decoded)
    : (r: Result<Models.TokenData, HttpError>)
    ensures r.Ok? <==> (var u := GetCurrentUser(authorization, cookie, decode);
      u.Ok? && u.value.role == Some(Enums.UserRole.Athlete))
    ensures r.Ok? ==> r == GetCurrentUser(authorization, cookie, decode)
    ensures GetCurrentUser(authorization, cookie, decode).Err? ==> r == GetCurrentUser(authorization, cookie, decode)
    ensures GetCurrentUser(authorization, cookie, decode).Ok? && r.Err? ==> r.error == HttpError(403, AthleteRequired)
  {
    match GetCurrentUser(authorization, cookie, decode)
    case Err(e) => Err(e)
    case Ok(user) =>
      if user.role != Some(Enums.UserRole.Athlete) then Err(HttpError(403, AthleteRequired)) else Ok(user)
  }

  /** An authenticated caller without a role passes neither role gate. */
  lemma NoRoleFailsBothGates(authorization: Option<string>, cookie: Option<string>, decode: string -> Decoded)
    requires GetCurrentUser(authorization, cookie, decode).Ok?
    requires GetCurrentUser(authorization, cookie, decode).value.role.None?
    ensures GetCurrentCoach(authorization, cookie, decode) == Err(HttpError(403, CoachRequired))
    ensures GetCurrentAthlete(authorization, cookie, decode) == Err(HttpError(403, AthleteRequired))
  {
  }

  /** No caller passes both role gates. */
  lemma GatesExclusive(authorization: Option<string>, cookie: Option<string>, decode: string -> Decoded)
    ensures !(GetCurrentCoach(authorization, cookie, decode).Ok? && GetCurrentAthlete(authorization, cookie, decode).Ok?)
  {
  }
}
