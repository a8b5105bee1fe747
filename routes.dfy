/**
 * The backend's route table: every endpoint under `/api`, its HTTP method
 * and path, and the dependency that guards it (none, `get_current_user` or
 * `get_current_coach`).
 */
module Routes {
  import opened Wrappers
  import Server
  import ServerAuth
  import Models
  import Enums

  datatype Method = GET | POST | PUT | DELETE

  datatype Endpoint =
    | Register | Login | Logout | Me | Root
    | List(res: Server.Resource)
    | GetOne                        // GET /athletes/{athlete_id}; the only single-document read
    | Create(res: Server.Resource)
    | Update(res: Server.Resource)
    | Delete(res: Server.Resource)
    | Overview | AssessmentSeries

  /** Records and session templates have no update endpoint. */
  predicate Exists(e: Endpoint) {
    e.Update? ==> e.res != Server.Records && e.res != Server.Templates
  }

  /** The path segment of a resource's collection. */
  function Base(res: Server.Resource): string {
    match res
    case Athletes => "/api/athletes"
    case Goals => "/api/goals"
    case Programs => "/api/programs"
    case Sessions => "/api/sessions"
    case Exercises => "/api/exercises"
    case Assessments => "/api/assessments"
    case Records => "/api/records"
    case Templates => "/api/templates/sessions"
  }

  function Route(e: Endpoint): (Method, string) {
    match e
    case Register => (POST, "/api/auth/register")
    case Login => (POST, "/api/auth/login")
    case Logout => (POST, "/api/auth/logout")
    case Me => (GET, "/api/auth/me")
    case Root => (GET, "/api/")
    case List(res) => (GET, Base(res))
    case GetOne => (GET, "/api/athletes/{id}")
    case Create(res) => (POST, Base(res))
    case Update(res) => (PUT, Base(res) + "/{id}")
    case Delete(res) => (DELETE, Base(res) + "/{id}")
    case Overview => (GET, "/api/analytics/athlete/{id}/overview")
    case AssessmentSeries => (GET, "/api/analytics/athlete/{id}/assessments")
  }

  function ResourceAt(path: string): Option<Server.Resource> {
    match path
    case "/api/athletes" => Some(Server.Athletes)
    case "/api/goals" => Some(Server.Goals)
    case "/api/programs" => Some(Server.Programs)
    case "/api/sessions" => Some(Server.Sessions)
    case "/api/exercises" => Some(Server.Exercises)
    case "/api/assessments" => Some(Server.Assessments)
    case "/api/records" => Some(Server.Records)
    case "/api/templates/sessions" => Some(Server.Templates)
    case _ => None
  }

  lemma ResourceAtBase(res: Server.Resource)
    ensures ResourceAt(Base(res)) == Some(res)
  {
  }

  /** A path ending in the id placeholder, without it. */
  function WithoutId(path: string): Option<string> {
    if |path| >= 5 && path[|path| - 5..] == "/{id}" then Some(path[..|path| - 5]) else None
  }

  /** Request dispatch: the endpoint a method and a path template select. */
  function Dispatch(m: Method, path: string): (r: Option<Endpoint>)
    ensures r.Some? ==> Exists(r.value)
  {
    match (m, path)
    case (POST, "/api/auth/register") => Some(Register)
    case (POST, "/api/auth/login") => Some(Login)
    case (POST, "/api/auth/logout") => Some(Logout)
    case (GET, "/api/auth/me") => Some(Me)
    case (GET, "/api/") => Some(Root)
    case (GET, "/api/athletes/{id}") => Some(GetOne)
    case (GET, "/api/analytics/athlete/{id}/overview") => Some(Overview)
    case (GET, "/api/analytics/athlete/{id}/assessments") => Some(AssessmentSeries)
    case (GET, _) => if ResourceAt(path).Some? then Some(List(ResourceAt(path).value)) else None
    case (POST, _) => if ResourceAt(path).Some? then Some(Create(ResourceAt(path).value)) else None
    case (PUT, _) =>
      var base := WithoutId(path);
      if base.Some? && ResourceAt(base.value).Some? && Exists(Update(ResourceAt(base.value).value))
      then Some(Update(ResourceAt(base.value).value)) else None
    case (DELETE, _) =>
      var base := WithoutId(path);
      if base.Some? && ResourceAt(base.value).Some? then Some(Delete(ResourceAt(base.value).value)) else None
  }

  lemma WithoutIdOfBase(res: Server.Resource)
    ensures WithoutId(Base(res) + "/{id}") == Some(Base(res))
  {
    var p := Base(res) + "/{id}";
    assert p[|p| - 5..] == "/{id}";
    assert p[..|p| - 5] == Base(res);
  }

  /** Every endpoint is reached by its own route, so no two endpoints share one. */
  lemma DispatchRoute(e: Endpoint)
    requires Exists(e)
    ensures Dispatch(Route(e).0, Route(e).1) == Some(e)
  {
    match e
    case List(res) => ResourceAtBase(res);
    case Create(res) => ResourceAtBase(res);
    case Update(res) => WithoutIdOfBase(res); ResourceAtBase(res);
    case Delete(res) => WithoutIdOfBase(res); ResourceAtBase(res);
    case _ =>
  }

  lemma RoutesDistinct(e1: Endpoint, e2: Endpoint)
    requires Exists(e1) && Exists(e2) && Route(e1) == Route(e2)
    ensures e1 == e2
  {
    DispatchRoute(e1);
    DispatchRoute(e2);
  }

  // ---- Guards ----

  datatype Gate = Public | AnyUser | CoachOnly

  /**
   * The dependency of each endpoint. Reads are open to every signed-in
   * user except the athlete list; writes need a coach, except updating a
   * session.
   */
  function GateOf(e: Endpoint): Gate {
    match e
    case Register | Login | Logout | Root => Public
    case Me | GetOne | Overview | AssessmentSeries => AnyUser
    case List(res) => if res == Server.Athletes then CoachOnly else AnyUser
    case Create(_) | Delete(_) => CoachOnly
    case Update(res) => if res == Server.Sessions then AnyUser else CoachOnly
  }

  /** Running the endpoint's dependency: the caller, or the error that stops the request. */
  function Authorize(e: Endpoint, authorization: Option<string>, cookie: Option<string>,
                     decode: string -> ServerAuth.Decoded): (r: Result<Option<Models.TokenData>, ServerAuth.HttpError>)
    ensures GateOf(e) == Public ==> r == Ok(None)
    ensures GateOf(e) == AnyUser ==>
      (r.Ok? <==> ServerAuth.GetCurrentUser(authorization, cookie, decode).Ok?)
    ensures GateOf(e) == CoachOnly ==>
      (r.Ok? <==> ServerAuth.GetCurrentUser(authorization, cookie, decode).Ok?
                  && ServerAuth.GetCurrentUser(authorization, cookie, decode).value.role == Some(Enums.UserRole.Coach))
    ensures r.Ok? && r.value.Some? ==> r.value.value == ServerAuth.GetCurrentUser(authorization, cookie, decode).value
  {
    match GateOf(e)
    case Public => Ok(None)
    case AnyUser =>
      (match ServerAuth.GetCurrentUser(authorization, cookie, decode)
       case Ok(u) => Ok(Some(u))
       case Err(err) => Err(err))
    case CoachOnly =>
      match ServerAuth.GetCurrentCoach(authorization, cookie, decode)
      case Ok(u) => Ok(Some(u))
      case Err(err) => Err(err)
  }

  /** Without a token only the public endpoints answer; the others say "Not authenticated". */
  lemma AnonymousReachesOnlyPublic(e: Endpoint, decode: string -> ServerAuth.Decoded)
    ensures Authorize(e, None, None, decode).Ok? <==> GateOf(e) == Public
    ensures GateOf(e) != Public ==>
      Authorize(e, None, None, decode) == Err(ServerAuth.HttpError(401, "Not authenticated"))
  {
  }

  /**
   * A signed-in athlete is refused with 403 exactly on the coach-only
   * endpoints: every create and delete, every update but the session
   * update, and the athlete list.
   */
  lemma AthleteRefusedOnCoachEndpoints(e: Endpoint, authorization: Option<string>, cookie: Option<string>,
                                       decode: string -> ServerAuth.Decoded)
    requires ServerAuth.GetCurrentUser(authorization, cookie, decode).Ok?
    requires ServerAuth.GetCurrentUser(authorization, cookie, decode).value.role == Some(Enums.UserRole.Athlete)
    ensures Authorize(e, authorization, cookie, decode).Err? <==> GateOf(e) == CoachOnly
    ensures GateOf(e) == CoachOnly ==>
      Authorize(e, authorization, cookie, decode) == Err(ServerAuth.HttpError(403, ServerAuth.CoachRequired))
    ensures (e.Create? || e.Delete?) ==> GateOf(e) == CoachOnly
    ensures e.Update? && e.res != Server.Sessions ==> GateOf(e) == CoachOnly
  {
  }

  /** A signed-in coach passes every guard. */
  lemma CoachPassesEveryGate(e: Endpoint, authorization: Option<string>, cookie: Option<string>,
                             decode: string -> ServerAuth.Decoded)
    requires ServerAuth.GetCurrentUser(authorization, cookie, decode).Ok?
    requires ServerAuth.GetCurrentUser(authorization, cookie, decode).value.role == Some(Enums.UserRole.Coach)
    ensures Authorize(e, authorization, cookie, decode).Ok?
  {
  }
}
