/**
 * The browser client of the API (`ApiService`): where each request goes,
 * what it sends, and how the response becomes a value or an `ApiError`.
 * `fetch`, JSON decoding and the form-urlencoding of query parameters are
 * parameters of the model.
 */
module Api {
  import opened Wrappers
  import Server
  import Routes
  import Seqs

  // ---- The response shapes the pages read ----

  /** `User`. */
  datatype User = User(id: string, role: string, email: string, firstName: string, lastName: string,
                       createdAt: string)

  /** The body of a successful login. */
  datatype TokenReply = TokenReply(accessToken: string, tokenType: string)

  /** `Athlete`, with the fields the pages read; `birth_date` is the ISO date string. */
  datatype Athlete = Athlete(id: string, firstName: string, lastName: string, birthDate: Option<string>,
                             specialties: seq<string>, sector: Option<string>)

  /** `Goal`: `status` is one of the goal statuses' wire names. */
  datatype Goal = Goal(id: string, athleteId: string, name: string, status: string)

  /** `Session`: `start` as a timestamp. */
  datatype Session = Session(id: string, athleteId: string, start: int, status: string)

  /** `PhysicalAssessment`: `date` as a timestamp; the scores that are present, by field name. */
  datatype PhysicalAssessment = PhysicalAssessment(id: string, athleteId: string, date: int, scores: map<string, int>)

  /** `PersonalRecord`. */
  datatype PersonalRecord = PersonalRecord(id: string, athleteId: string, discipline: string, value: string)

  // ---- Base URL ----

  /**
   * `API_BASE`: the Vite variable when it is non-empty, otherwise the
   * process variable as it is; an undefined one prints as "undefined".
   */
  function ApiBase(viteUrl: Option<string>, processUrl: Option<string>): (r: string)
    ensures viteUrl.Some? && viteUrl.value != "" ==> r == viteUrl.value + "/api"
    ensures (viteUrl.None? || viteUrl.value == "") && processUrl.Some? ==> r == processUrl.value + "/api"
    ensures (viteUrl.None? || viteUrl.value == "") && processUrl.None? ==> r == "undefined/api"
  {
    var backend := if viteUrl.Some? && viteUrl.value != "" then viteUrl.value
                   else if processUrl.Some? then processUrl.value else "undefined";
    backend + "/api"
  }

  // ---- Requests ----

  /** The `RequestInit` a service method passes to `request`. */
  datatype Options = Options(httpMethod: Routes.Method := Routes.GET, body: Option<string> := None,
                             headers: Option<map<string, string>> := None)

  /** What `fetch` is called with. */
  datatype FetchCall = FetchCall(url: string, httpMethod: Routes.Method, credentials: string,
                                 headers: map<string, string>, body: Option<string>)

  const JsonHeaders: map<string, string> := map["Content-Type" := "application/json"]

  /**
   * `request`'s call to `fetch`: the URL is the base plus the path, cookies
   * are included, and the JSON content type is sent. The caller's options
   * are spread last, so headers of the caller replace the merged ones.
   */
  function Fetch(base: string, path: string, options: Options): (r: FetchCall)
    ensures r.url == base + path && r.credentials == "include"
    ensures r.httpMethod == options.httpMethod && r.body == options.body
    ensures options.headers.None? ==> r.headers == JsonHeaders
    ensures options.headers.Some? ==> r.headers == options.headers.value
  {
    var merged := if options.headers.Some? then JsonHeaders + options.headers.value else JsonHeaders;
    var headers := if options.headers.Some? then options.headers.value else merged;
    FetchCall(base + path, options.httpMethod, "include", headers, options.body)
  }

  /** A response as `request` reads it. */
  datatype Response = Response(status: int, text: string)

  /** What a service method's promise rejects with. */
  datatype Failure =
    | ApiError(status: int, message: string)   // the `ApiError` class
    | NetworkFailure                           // `fetch` itself rejected
    | BadJson                                  // `response.json()` rejected

  predicate IsOk(status: int) {
    200 <= status <= 299
  }

  /**
   * The rest of `request`: a non-ok status rejects with an `ApiError`
   * holding the status and the body text; an ok one resolves to the decoded
   * body.
   */
  function Complete<T>(response: Option<Response>, decode: string -> Option<T>): (r: Result<T, Failure>)
    ensures response.None? ==> r == Err(NetworkFailure)
    ensures response.Some? && !IsOk(response.value.status) ==>
      r == Err(ApiError(response.value.status, response.value.text))
    ensures response.Some? && IsOk(response.value.status) ==>
      (r.Ok? <==> decode(response.value.text).Some?)
      && (r.Ok? ==> r.value == decode(response.value.text).value)
      && (r.Err? ==> r.error == BadJson)
    ensures r.Err? && r.error.ApiError? ==> !IsOk(r.error.status)
  {
    match response
    case None => Err(NetworkFailure)
    case Some(resp) =>
      if !IsOk(resp.status) then Err(ApiError(resp.status, resp.text))
      else match decode(resp.text)
        case None => Err(BadJson)
        case Some(v) => Ok(v)
  }

  // ---- The service's calls ----

  /** The calls of `ApiService`, by the endpoint they address. */
  datatype Call =
    | Login | Logout | GetMe
    | List(res: Server.Resource)
    | GetAthlete
    | Create(res: Server.Resource)
    | Update(res: Server.Resource)
    | Delete(res: Server.Resource)
    | Overview | AssessmentSeries

  /** The service has no update for records or templates. */
  predicate Offered(c: Call) {
    c.Update? ==> c.res != Server.Records && c.res != Server.Templates
  }

  /** The collection path of a resource, relative to the base. */
  function Collection(res: Server.Resource): string {
    match res
    case Athletes => "/athletes"
    case Goals => "/goals"
    case Programs => "/programs"
    case Sessions => "/sessions"
    case Exercises => "/exercises"
    case Assessments => "/assessments"
    case Records => "/records"
    case Templates => "/templates/sessions"
  }

  lemma BaseIsApiCollection(res: Server.Resource)
    ensures Routes.Base(res) == "/api" + Collection(res)
  {
    match res
    case Athletes => assert "/api" + "/athletes" == "/api/athletes";
    case Goals => assert "/api" + "/goals" == "/api/goals";
    case Programs => assert "/api" + "/programs" == "/api/programs";
    case Sessions => assert "/api" + "/sessions" == "/api/sessions";
    case Exercises => assert "/api" + "/exercises" == "/api/exercises";
    case Assessments => assert "/api" + "/assessments" == "/api/assessments";
    case Records => assert "/api" + "/records" == "/api/records";
    case Templates => assert "/api" + "/templates/sessions" == "/api/templates/sessions";
  }

  /** The path of a call for the id `id`, before any query string. */
  function PathOf(c: Call, id: string): string {
    match c
    case Login => "/auth/login"
    case Logout => "/auth/logout"
    case GetMe => "/auth/me"
    case List(res) => Collection(res)
    case GetAthlete => "/athletes/" + id
    case Create(res) => Collection(res)
    case Update(res) => Collection(res) + "/" + id
    case Delete(res) => Collection(res) + "/" + id
    case Overview => "/analytics/athlete/" + id + "/overview"
    case AssessmentSeries => "/analytics/athlete/" + id + "/assessments"
  }

  /** The options a call passes: a JSON body for login, creates and updates; never headers. */
  function OptionsOf(c: Call, json: Option<string>): (o: Options)
    ensures o.headers.None?
    ensures o.body.Some? <==> (c.Login? || c.Create? || c.Update?) && json.Some?
    ensures c.List? || c.GetAthlete? || c.GetMe? || c.Overview? || c.AssessmentSeries? ==> o.httpMethod == Routes.GET
    ensures c.Login? || c.Logout? || c.Create? ==> o.httpMethod == Routes.POST
    ensures c.Update? ==> o.httpMethod == Routes.PUT
    ensures c.Delete? ==> o.httpMethod == Routes.DELETE && o.body.None?
  {
    match c
    case Login | Create(_) => Options(Routes.POST, json)
    case Logout => Options(Routes.POST)
    case Update(_) => Options(Routes.PUT, json)
    case Delete(_) => Options(Routes.DELETE)
    case _ => Options()
  }

  /** Every call of the service sends cookies and the JSON content type. */
  lemma EveryCallSendsJson(base: string, c: Call, id: string, json: Option<string>)
    ensures var f := Fetch(base, PathOf(c, id), OptionsOf(c, json));
      f.credentials == "include" && f.headers == JsonHeaders && f.url == base + PathOf(c, id)
  {
  }

  /** The endpoint of the backend each call is meant for. */
  function EndpointOf(c: Call): (e: Routes.Endpoint)
    ensures Offered(c) ==> Routes.Exists(e)
  {
    match c
    case Login => Routes.Login
    case Logout => Routes.Logout
    case GetMe => Routes.Me
    case List(res) => Routes.List(res)
    case GetAthlete => Routes.GetOne
    case Create(res) => Routes.Create(res)
    case Update(res) => Routes.Update(res)
    case Delete(res) => Routes.Delete(res)
    case Overview => Routes.Overview
    case AssessmentSeries => Routes.AssessmentSeries
  }

  lemma IdPathIsRoutePath(res: Server.Resource)
    ensures "/api" + (Collection(res) + "/" + "{id}") == Routes.Base(res) + "/{id}"
  {
    BaseIsApiCollection(res);
  }

  /** The calls without a resource address a fixed route path. */
  // String-literal steps of `PathIsRoutePath`, each proved on its own.

  lemma AuthPathsAreRoutePaths()
    ensures "/api" + "/auth/login" == "/api/auth/login"
    ensures "/api" + "/auth/logout" == "/api/auth/logout"
    ensures "/api" + "/auth/me" == "/api/auth/me"
  {
  }

  lemma AthletePathIsRoutePath()
    ensures "/api" + ("/athletes/" + "{id}") == "/api/athletes/{id}"
  {
  }

  lemma OverviewPathIsRoutePath()
    ensures "/api" + ("/analytics/athlete/" + "{id}" + "/overview") == "/api/analytics/athlete/{id}/overview"
  {
  }

  lemma SeriesPathIsRoutePath()
    ensures "/api" + ("/analytics/athlete/" + "{id}" + "/assessments") == "/api/analytics/athlete/{id}/assessments"
  {
  }

  /** Under the base URL, each call's path template is the path of its endpoint's route. */
  lemma PathIsRoutePath(c: Call)
    ensures "/api" + PathOf(c, "{id}") == Routes.Route(EndpointOf(c)).1
  {
    match c
    case List(res) => BaseIsApiCollection(res);
    case Create(res) => BaseIsApiCollection(res);
    case Update(res) => IdPathIsRoutePath(res);
    case Delete(res) => IdPathIsRoutePath(res);
    case Login | Logout | GetMe => AuthPathsAreRoutePaths();
    case GetAthlete => AthletePathIsRoutePath();
    case Overview => OverviewPathIsRoutePath();
    case AssessmentSeries => SeriesPathIsRoutePath();
  }

  /**
   * The client and the server agree: under the base URL, each call's method
   * and path template are the route of the endpoint it is meant for, so the
   * backend dispatches it there.
   */
  lemma CallsReachTheirEndpoints(c: Call, json: Option<string>)
    requires Offered(c)
    ensures Routes.Route(EndpointOf(c)) == (OptionsOf(c, json).httpMethod, "/api" + PathOf(c, "{id}"))
    ensures Routes.Dispatch(OptionsOf(c, json).httpMethod, "/api" + PathOf(c, "{id}")) == Some(EndpointOf(c))
  {
    PathIsRoutePath(c);
    Routes.DispatchRoute(EndpointOf(c));
  }

  // ---- Query strings ----

  /** Query parameters in the order they were appended. */
  type Params = seq<(string, string)>

  /** The parameters among `candidates` whose value is a non-empty string, in order. */
  function PresentParams(candidates: seq<(string, Option<string>)>): (r: Params)
    ensures |r| <= |candidates|
  {
    if candidates == [] then []
    else
      var rest := PresentParams(candidates[1..]);
      var (k, v) := candidates[0];
      if v.Some? && v.value != "" then [(k, v.value)] + rest else rest
  }

  /** The one-parameter contribution of a candidate. */
  function One(candidate: (string, Option<string>)): Params {
    if candidate.1.Some? && candidate.1.value != "" then [(candidate.0, candidate.1.value)] else []
  }

  lemma PresentParamsTwo(a: (string, Option<string>), b: (string, Option<string>))
    ensures PresentParams([a, b]) == One(a) + One(b)
  {
    assert [a, b][1..] == [b];
    assert [b][1..] == [];
  }

  lemma PresentParamsFour(a: (string, Option<string>), b: (string, Option<string>),
                          c: (string, Option<string>), d: (string, Option<string>))
    ensures PresentParams([a, b, c, d]) == One(a) + One(b) + One(c) + One(d)
  {
    assert [a, b, c, d][1..] == [b, c, d];
    assert [b, c, d][1..] == [c, d];
    PresentParamsTwo(c, d);
  }

  /** The keys of a sequence of key-value pairs, in order. */
  function Names<V>(pairs: seq<(string, V)>): (r: seq<string>)
    ensures |r| == |pairs| && forall i :: 0 <= i < |pairs| ==> r[i] == pairs[i].0
  {
    seq(|pairs|, i requires 0 <= i < |pairs| => pairs[i].0)
  }

  /** The parameters keep the order of the candidates. */
  lemma {:induction false} PresentParamsOrdered(candidates: seq<(string, Option<string>)>)
    ensures Seqs.IsSubseq(Names(PresentParams(candidates)), Names(candidates))
  {
    if candidates != [] {
      var rest := candidates[1..];
      PresentParamsOrdered(rest);
      var r := Names(PresentParams(candidates));
      var all := Names(candidates);
      assert all[1..] == Names(rest);
      if Server.Present(candidates[0].1) {
        assert r[0] == all[0] && r[1..] == Names(PresentParams(rest));
      } else {
        assert r == Names(PresentParams(rest));
      }
    }
  }

  /** A parameter is sent exactly when its value is present, with that value. */
  lemma {:induction false} PresentParamsMeaning(candidates: seq<(string, Option<string>)>, k: string)
    requires forall i, j :: 0 <= i < j < |candidates| ==> candidates[i].0 != candidates[j].0
    ensures Lookup(PresentParams(candidates), k).Some? <==>
      exists i :: 0 <= i < |candidates| && candidates[i].0 == k && Server.Present(candidates[i].1)
    ensures forall i :: 0 <= i < |candidates| && candidates[i].0 == k && Server.Present(candidates[i].1) ==>
      Lookup(PresentParams(candidates), k) == candidates[i].1
  {
    if candidates != [] {
      var rest := candidates[1..];
      PresentParamsMeaning(rest, k);
      assert forall i :: 1 <= i < |candidates| ==> candidates[i] == rest[i - 1];
    }
  }

  /** `params.get(key)`: the first value under the key. */
  function Lookup(params: Params, key: string): (r: Option<string>)
    ensures r.Some? ==> exists i :: 0 <= i < |params| && params[i] == (key, r.value)
  {
    if params == [] then None
    else if params[0].0 == key then Some(params[0].1)
    else
      var r := Lookup(params[1..], key);
      if r.Some? then
        var i :| 0 <= i < |params[1..]| && params[1..][i] == (key, r.value);
        assert params[i + 1] == (key, r.value);
        r
      else r
  }

  /** `URLSearchParams.toString()`: `key=value` pairs joined by `&`, each part form-encoded by `encode`. */
  function QueryString(params: Params, encode: string -> string): (r: string)
    ensures params == [] <==> r == []
  {
    if params == [] then ""
    else
      var first := encode(params[0].0) + "=" + encode(params[0].1);
      assert first != [];
      if |params| == 1 then first else first + "&" + QueryString(params[1..], encode)
  }

  /** A path with its query string, the `?` only when the string is non-empty. */
  function WithQuery(path: string, query: string): (r: string)
    ensures query == "" ==> r == path
    ensures query != "" ==> r == path + "?" + query
  {
    if query != "" then path + "?" + query else path
  }

  /**
   * `getAthletes`' parameters: `name`, then `sector`, each appended only
   * when it is a non-empty string.
   */
  method AthletesParams(name: Option<string>, sector: Option<string>) returns (params: Params)
    ensures params == PresentParams([("name", name), ("sector", sector)])
  {
    PresentParamsTwo(("name", name), ("sector", sector));
    params := [];
    if name.Some? && name.value != "" {
      params := params + [("name", name.value)];
    }
    if sector.Some? && sector.value != "" {
      params := params + [("sector", sector.value)];
    }
  }

  /** `getAthletes`: the path, bare when no filter is set. */
  method GetAthletesPath(name: Option<string>, sector: Option<string>, encode: string -> string) returns (path: string)
    ensures !Server.Present(name) && !Server.Present(sector) ==> path == "/athletes"
    ensures path == WithQuery("/athletes", QueryString(PresentParams([("name", name), ("sector", sector)]), encode))
  {
    var params := AthletesParams(name, sector);
    path := WithQuery("/athletes", QueryString(params, encode));
  }

  /**
   * What the server makes of the athlete filters the client sends: reading
   * the parameters back gives the query of the filters themselves, since the
   * client drops empty filters and the server ignores them.
   */
  lemma AthleteFiltersReachServer(name: Option<string>, sector: Option<string>)
    ensures var params := PresentParams([("name", name), ("sector", sector)]);
      Server.AthletesQuery(Lookup(params, "name"), Lookup(params, "sector")) == Server.AthletesQuery(name, sector)
  {
  }

  /**
   * `getSessions`' parameters: athlete_id, program_id, start_date, end_date
   * in this order, each only when it is a non-empty string.
   */
  method SessionsParams(athleteId: Option<string>, programId: Option<string>,
                        startDate: Option<string>, endDate: Option<string>) returns (params: Params)
    ensures params == PresentParams([("athlete_id", athleteId), ("program_id", programId),
                                     ("start_date", startDate), ("end_date", endDate)])
  {
    PresentParamsFour(("athlete_id", athleteId), ("program_id", programId), ("start_date", startDate), ("end_date", endDate));
    params := [];
    if athleteId.Some? && athleteId.value != "" {
      params := params + [("athlete_id", athleteId.value)];
    }
    if programId.Some? && programId.value != "" {
      params := params + [("program_id", programId.value)];
    }
    if startDate.Some? && startDate.value != "" {
      params := params + [("start_date", startDate.value)];
    }
    if endDate.Some? && endDate.value != "" {
      params := params + [("end_date", endDate.value)];
    }
  }

  /** `getSessions`: the path, bare when no filter is set. */
  method GetSessionsPath(athleteId: Option<string>, programId: Option<string>,
                         startDate: Option<string>, endDate: Option<string>, encode: string -> string)
    returns (path: string)
    ensures (!Server.Present(athleteId) && !Server.Present(programId) && !Server.Present(startDate)
             && !Server.Present(endDate)) ==> path == "/sessions"
    ensures path == WithQuery("/sessions", QueryString(
      PresentParams([("athlete_id", athleteId), ("program_id", programId),
                     ("start_date", startDate), ("end_date", endDate)]), encode))
  {
    PresentParamsFour(("athlete_id", athleteId), ("program_id", programId), ("start_date", startDate), ("end_date", endDate));
    var params := SessionsParams(athleteId, programId, startDate, endDate);
    path := WithQuery("/sessions", QueryString(params, encode));
  }

  /** The session parameters are sent in their fixed order, each at most once. */
  lemma SessionParamsOrdered(athleteId: Option<string>, programId: Option<string>,
                             startDate: Option<string>, endDate: Option<string>)
    ensures Seqs.IsSubseq(
      Names(PresentParams([("athlete_id", athleteId), ("program_id", programId),
                           ("start_date", startDate), ("end_date", endDate)])),
      ["athlete_id", "program_id", "start_date", "end_date"])
  {
    var c := [("athlete_id", athleteId), ("program_id", programId), ("start_date", startDate), ("end_date", endDate)];
    PresentParamsOrdered(c);
    assert Names(c) == ["athlete_id", "program_id", "start_date", "end_date"];
  }

  /**
   * `getGoals`, `getPrograms`, `getAssessments`, `getRecords` (with
   * `athlete_id`) and `getExercises` (with `category`): `?key=value` is
   * added exactly when a non-empty value is given; the value is not encoded.
   */
  function SingleFilterPath(res: Server.Resource, key: string, value: Option<string>): (r: string)
    ensures Server.Present(value) ==> r == Collection(res) + "?" + key + "=" + value.value
    ensures !Server.Present(value) ==> r == Collection(res)
  {
    if value.Some? && value.value != "" then Collection(res) + "?" + key + "=" + value.value else Collection(res)
  }
}
