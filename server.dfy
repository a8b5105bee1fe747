/**
 * The backend's route handlers over the document store: registration and
 * login, the list queries built from optional filters, create, partial
 * update and delete with their 404s, and the two analytics aggregations.
 * The caller's identity is decided beforehand by the route's gate (module
 * `Routes`); hashing, signing and the clock are parameters.
 */
module Server {
  import opened Wrappers
  import opened Values
  import Enums
  import Models
  import Store
  import ServerAuth
  import Seqs

  /** The database: each collection by name; a collection never written is empty. */
  type Db = map<string, Store.Collection>

  function Coll(db: Db, name: string): Store.Collection {
    if name in db then db[name] else []
  }

  /** Replaces one collection; the database is untouched when nothing changed. */
  function Put(db: Db, name: string, c: Store.Collection): (r: Db)
    ensures Coll(r, name) == c
    ensures forall other :: other != name ==> Coll(r, other) == Coll(db, other)
    ensures c == Coll(db, name) ==> r == db
  {
    if c == Coll(db, name) then db else db[name := c]
  }

  const Users: string := "users"

  /** The resources that share the create / update / delete handler shape. */
  datatype Resource = Athletes | Goals | Programs | Sessions | Exercises | Assessments | Records | Templates {
    function Collection(): string {
      match this
      case Athletes => "athletes"
      case Goals => "goals"
      case Programs => "programs"
      case Sessions => "sessions"
      case Exercises => "exercises"
      case Assessments => "physical_assessments"
      case Records => "personal_records"
      case Templates => "session_templates"
    }
    /** The noun of the 404 detail and of the deletion message. */
    function Noun(): string {
      match this
      case Athletes => "Athlete"
      case Goals => "Goal"
      case Programs => "Program"
      case Sessions => "Session"
      case Exercises => "Exercise"
      case Assessments => "Assessment"
      case Records => "Record"
      case Templates => "Template"
    }
    function NotFound(): ServerAuth.HttpError {
      ServerAuth.HttpError(404, Noun() + " not found")
    }
  }

  /** An optional query parameter that Python treats as set: present and non-empty. */
  predicate Present(o: Option<string>) {
    o.Some? && o.value != ""
  }

  // ---- Authentication endpoints ----

  const AlreadyRegistered: ServerAuth.HttpError := ServerAuth.HttpError(400, "Email already registered")
  const BadCredentials: ServerAuth.HttpError := ServerAuth.HttpError(401, "Invalid email or password")
  const InternalError: ServerAuth.HttpError := ServerAuth.HttpError(500, "Internal Server Error")

  function EmailQuery(email: string): Store.Query {
    map["email" := Store.Field(Store.Equals(Str(email)))]
  }

  /** The fields of a stored user that `UserResponse` exposes. */
  const ResponseKeys: set<string> := {"id", "role", "email", "first_name", "last_name", "created_at"}

  function ResponseOf(d: Doc): (r: Doc)
    ensures r.Keys == d.Keys * ResponseKeys
    ensures forall k :: k in r ==> r[k] == d[k]
  {
    map k | k in d && k in ResponseKeys :: d[k]
  }

  /** The document `register` stores for a new user. */
  function StoredUser(u: Models.UserCreate, hash: string -> string, m: Models.Meta, now: int): Doc {
    Store.CreateDocument([], Models.UserDoc(Models.NewUser(u, hash(u.password), m)), now).1
  }

  /**
   * The stored user holds the hash of the password and not the password,
   * with the request's email and role, a fresh id and the creation time.
   */
  lemma StoredUserFields(u: Models.UserCreate, hash: string -> string, m: Models.Meta, now: int)
    ensures var d := StoredUser(u, hash, m, now);
      "password" !in d && "hashed_password" in d && d["hashed_password"] == Str(hash(u.password))
      && "email" in d && d["email"] == Str(u.email) && "role" in d && d["role"] == Str(u.role.Name())
      && "id" in d && d["id"] == Str(m.id) && d["created_at"] == Time(now)
  {
    var user := Models.NewUser(u, hash(u.password), m);
    Models.UserDocFields(user);
  }

  /**
   * `register`: an email that is already stored is refused with 400;
   * otherwise the new user is appended to the users and its public fields
   * are returned. Nothing else is written.
   */
  function Register(db: Db, u: Models.UserCreate, hash: string -> string, m: Models.Meta, now: int)
    : (r: (Db, Result<Doc, ServerAuth.HttpError>))
    ensures Store.FindOne(Coll(db, Users), EmailQuery(u.email)).Some? ==> r == (db, Err(AlreadyRegistered))
    ensures Store.FindOne(Coll(db, Users), EmailQuery(u.email)).None? ==>
      Coll(r.0, Users) == Coll(db, Users) + [StoredUser(u, hash, m, now)]
      && r.1 == Ok(ResponseOf(StoredUser(u, hash, m, now)))
    ensures forall other :: other != Users ==> Coll(r.0, other) == Coll(db, other)
  {
    var users := Coll(db, Users);
    if Store.FindOne(users, EmailQuery(u.email)).Some? then (db, Err(AlreadyRegistered))
    else
      var user := Models.NewUser(u, hash(u.password), m);
      var (users', created) := Store.CreateDocument(users, Models.UserDoc(user), now);
      (Put(db, Users, users'), Ok(ResponseOf(created)))
  }

  /** No two stored users share an email. */
  predicate EmailsUnique(users: Store.Collection) {
    forall i, j :: 0 <= i < j < |users| ==> Get(users[i], "email") != Get(users[j], "email")
  }

  /** Registration keeps emails unique: a second account for one email is never stored. */
  lemma {:induction false} RegisterKeepsEmailsUnique(db: Db, u: Models.UserCreate, hash: string -> string, m: Models.Meta, now: int)
    requires EmailsUnique(Coll(db, Users))
    ensures EmailsUnique(Coll(Register(db, u, hash, m, now).0, Users))
  {
    var users := Coll(db, Users);
    if Store.FindOne(users, EmailQuery(u.email)).None? {
      var users' := Coll(Register(db, u, hash, m, now).0, Users);
      var n := |users|;
      StoredUserFields(u, hash, m, now);
      assert Get(users'[n], "email") == Str(u.email);
      forall i | 0 <= i < n
        ensures Get(users'[i], "email") != Get(users'[n], "email")
      {
        assert users'[i] == users[i];
        assert !Store.Matches(users[i], EmailQuery(u.email));
      }
    }
  }

  /** The cookie `login` sets: http-only, thirty days, same-site lax. */
  datatype Cookie = Cookie(name: string, value: string, httpOnly: bool, maxAge: int, sameSite: string)

  datatype LoginReply = LoginReply(token: Models.Token, cookie: Cookie)

  /** The claims `login` signs: the stored user's id, email and role. */
  function LoginClaims(user: Doc): map<string, Value>
    requires "id" in user && "email" in user && "role" in user
  {
    map["sub" := user["id"], "email" := user["email"], "role" := user["role"]]
  }

  /**
   * `login`: an unknown email and a wrong password give the same 401; on
   * success the token is signed over the user's id, email and role with the
   * default thirty-day lifetime, and is also set as a cookie. A stored user
   * missing one of the fields read is a `KeyError`: 500.
   */
  function Login(db: Db, req: Models.LoginRequest, verify: (string, string) -> bool,
                 encode: ServerAuth.TokenPayload -> string, now: int): (r: Result<LoginReply, ServerAuth.HttpError>)
    ensures Store.FindOne(Coll(db, Users), EmailQuery(req.email)).None? ==> r == Err(BadCredentials)
    ensures r.Ok? ==> var user := Store.FindOne(Coll(db, Users), EmailQuery(req.email));
      user.Some? && "hashed_password" in user.value && user.value["hashed_password"].Str?
      && verify(req.password, user.value["hashed_password"].s)
      && "id" in user.value && "email" in user.value && "role" in user.value
      && r.value.token == Models.Token(encode(ServerAuth.TokenPayload(LoginClaims(user.value), now + 2592000)), "bearer")
      && r.value.cookie == Cookie("access_token", r.value.token.accessToken, true, 2592000, "lax")
    ensures r.Err? ==> r.error == BadCredentials || r.error == InternalError
  {
    match Store.FindOne(Coll(db, Users), EmailQuery(req.email))
    case None => Err(BadCredentials)
    case Some(user) =>
      if "hashed_password" !in user || !user["hashed_password"].Str? then Err(InternalError)
      else if !verify(req.password, user["hashed_password"].s) then Err(BadCredentials)
      else if "id" !in user || "email" !in user || "role" !in user then Err(InternalError)
      else
        assert LoginClaims(user) - {"exp"} == LoginClaims(user);
        var token := encode(ServerAuth.CreateAccessToken(LoginClaims(user), None, now));
        Ok(LoginReply(Models.Token(token, "bearer"), Cookie("access_token", token, true, 30 * 24 * 60 * 60, "lax")))
  }

  /** An unknown email and a wrong password are indistinguishable to the caller. */
  lemma LoginFailureUniform(db: Db, req: Models.LoginRequest, verify: (string, string) -> bool,
                            encode: ServerAuth.TokenPayload -> string, now: int)
    requires var user := Store.FindOne(Coll(db, Users), EmailQuery(req.email));
      user.None? || ("hashed_password" in user.value && user.value["hashed_password"].Str?
                     && !verify(req.password, user.value["hashed_password"].s))
    ensures Login(db, req, verify, encode, now) == Err(ServerAuth.HttpError(401, "Invalid email or password"))
  {
  }

  /** A token signed over a user's id, email and role verifies to exactly that identity. */
  lemma VerifyUserClaims(token: string, decode: string -> ServerAuth.Decoded, id: string, email: string, role: Enums.UserRole)
    requires decode(token) == ServerAuth.Decoded.Valid(map["sub" := Str(id), "email" := Str(email), "role" := Str(role.Name())])
    ensures ServerAuth.VerifyToken(token, decode) == Ok(Models.TokenData(Some(id), Some(email), Some(role)))
  {
    assert Enums.ParseUserRole(role.Name()) == Some(role);
  }

  /**
   * Logging in with the email and password of a fresh registration signs
   * the new user's id, email and role, whatever other users are stored.
   */
  lemma LoginAfterRegister(db: Db, req: Models.LoginRequest, verify: (string, string) -> bool,
                           encode: ServerAuth.TokenPayload -> string, now: int,
                           u: Models.UserCreate, hash: string -> string, m: Models.Meta, t: int)
    requires Store.FindOne(Coll(db, Users), EmailQuery(u.email)).None?
    requires req.email == u.email && verify(req.password, hash(u.password))
    ensures var r := Login(Register(db, u, hash, m, t).0, req, verify, encode, now);
      r.Ok? && r.value.token.accessToken ==
        encode(ServerAuth.TokenPayload(map["sub" := Str(m.id), "email" := Str(u.email), "role" := Str(u.role.Name())],
                                       now + 2592000))
  {
    var db' := Register(db, u, hash, m, t).0;
    var stored := StoredUser(u, hash, m, t);
    StoredUserFields(u, hash, m, t);
    assert Coll(db', Users) == Coll(db, Users) + [stored];
    assert Store.Matches(stored, EmailQuery(req.email));
    Store.FindOneAppend(Coll(db, Users), stored, EmailQuery(req.email));
    assert LoginClaims(stored) == map["sub" := Str(m.id), "email" := Str(u.email), "role" := Str(u.role.Name())];
  }

  /**
   * The token `login` issues identifies the stored user it was issued for,
   * with that user's role, whenever the JWT library decodes what it encoded.
   */
  lemma LoginTokenIdentifiesUser(db: Db, req: Models.LoginRequest, verify: (string, string) -> bool,
                                 encode: ServerAuth.TokenPayload -> string, decode: string -> ServerAuth.Decoded,
                                 now: int, role: Enums.UserRole)
    requires forall p: ServerAuth.TokenPayload :: decode(encode(p)) == ServerAuth.Decoded.Valid(p.claims)
    requires Login(db, req, verify, encode, now).Ok?
    requires var user := Store.FindOne(Coll(db, Users), EmailQuery(req.email)).value;
      user["id"].Str? && user["email"].Str? && user["role"] == Str(role.Name())
    ensures var user := Store.FindOne(Coll(db, Users), EmailQuery(req.email)).value;
      ServerAuth.VerifyToken(Login(db, req, verify, encode, now).value.token.accessToken, decode)
      == Ok(Models.TokenData(Some(user["id"].s), Some(user["email"].s), Some(role)))
  {
    var user := Store.FindOne(Coll(db, Users), EmailQuery(req.email)).value;
    var claims := map["sub" := Str(user["id"].s), "email" := Str(user["email"].s), "role" := Str(role.Name())];
    assert LoginClaims(user) == claims;
    var token := Login(db, req, verify, encode, now).value.token.accessToken;
    assert decode(token) == ServerAuth.Decoded.Valid(claims);
    VerifyUserClaims(token, decode, user["id"].s, user["email"].s, role);
  }

  /** The browser's cookies for the API's origin, by name. */
  type CookieJar = map<string, string>

  /** How the browser applies a `Set-Cookie`: a non-positive max age removes the cookie. */
  function ApplyCookie(jar: CookieJar, c: Cookie): (r: CookieJar)
    ensures c.maxAge > 0 ==> r == jar[c.name := c.value]
    ensures c.maxAge <= 0 ==> c.name !in r && forall n :: n != c.name && n in jar ==> n in r && r[n] == jar[n]
  {
    if c.maxAge > 0 then jar[c.name := c.value] else jar - {c.name}
  }

  function CookieOf(jar: CookieJar, name: string): Option<string> {
    if name in jar then Some(jar[name]) else None
  }

  /** `logout`: the access-token cookie is deleted and a message returned; nothing else changes. */
  function Logout(): (r: (string, Cookie))
    ensures r.0 == "Successfully logged out"
    ensures r.1.name == "access_token" && r.1.maxAge <= 0
  {
    ("Successfully logged out", Cookie("access_token", "", true, 0, "lax"))
  }

  /** After login the browser holds the issued token; after logout it holds none and is unauthenticated. */
  lemma LogoutEndsCookieSession(jar: CookieJar, reply: LoginReply, decode: string -> ServerAuth.Decoded)
    requires reply.cookie.name == "access_token" && reply.cookie.maxAge > 0
    ensures CookieOf(ApplyCookie(jar, reply.cookie), "access_token") == Some(reply.cookie.value)
    ensures var after := ApplyCookie(ApplyCookie(jar, reply.cookie), Logout().1);
      CookieOf(after, "access_token").None?
      && ServerAuth.GetCurrentUser(None, CookieOf(after, "access_token"), decode)
         == Err(ServerAuth.HttpError(401, "Not authenticated"))
  {
  }

  /** `get_me`: the caller's stored user without its password hash, or 404. */
  function GetMe(db: Db, userId: string): (r: Result<Doc, ServerAuth.HttpError>)
    ensures Store.GetDocument(Coll(db, Users), userId).None? <==> r == Err(ServerAuth.HttpError(404, "User not found"))
    ensures r.Ok? ==> "hashed_password" !in r.value && r.value.Keys <= ResponseKeys
    ensures r.Ok? ==> Get(r.value, "id") == Str(userId)
    ensures r.Ok? ==> (Store.GetDocument(Coll(db, Users), userId).Some? &&
      var stored := Store.GetDocument(Coll(db, Users), userId).value;
      forall k :: k in ResponseKeys && k in stored ==> k in r.value && r.value[k] == stored[k])
  {
    match Store.GetDocument(Coll(db, Users), userId)
    case None => Err(ServerAuth.HttpError(404, "User not found"))
    case Some(d) => Ok(ResponseOf(d))
  }

  // ---- Query construction ----

  /** A name matches when it is a case-insensitive substring of the first or the last name. */
  predicate NameMatches(d: Doc, name: string) {
    Store.Holds(Get(d, "first_name"), Store.ContainsIgnoringCase(name))
    || Store.Holds(Get(d, "last_name"), Store.ContainsIgnoringCase(name))
  }

  /** `get_athletes`' query: `name` adds the `$or` over both names, `sector` an equality. */
  function AthletesQuery(name: Option<string>, sector: Option<string>): (q: Store.Query)
    ensures q.Keys <= {"$or", "sector"}
    ensures "$or" in q <==> Present(name)
    ensures "sector" in q <==> Present(sector)
    ensures q == map[] <==> !Present(name) && !Present(sector)
  {
    var q: Store.Query := map[];
    var q := if Present(name) then
      q["$or" := Store.AnyOf([("first_name", Store.ContainsIgnoringCase(name.value)),
                              ("last_name", Store.ContainsIgnoringCase(name.value))])]
    else q;
    if Present(sector) then q["sector" := Store.Field(Store.Equals(Str(sector.value)))] else q
  }

  /** What the athlete query selects: each filter that is set must hold. */
  lemma AthletesQueryMeaning(name: Option<string>, sector: Option<string>, d: Doc)
    ensures Store.Matches(d, AthletesQuery(name, sector)) <==>
      (!Present(name) || NameMatches(d, name.value))
      && (!Present(sector) || Get(d, "sector") == Str(sector.value))
  {
    var q := AthletesQuery(name, sector);
    if Present(name) {
      var alts := q["$or"].alternatives;
      assert alts[0].0 == "first_name" && alts[1].0 == "last_name";
      if NameMatches(d, name.value) {
        if Store.Holds(Get(d, "first_name"), Store.ContainsIgnoringCase(name.value)) {
          assert Store.Holds(Get(d, alts[0].0), alts[0].1);
        } else {
          assert Store.Holds(Get(d, alts[1].0), alts[1].1);
        }
      }
    }
  }

  /** `get_sessions`' query: athlete and program equalities, and a date range only with both bounds. */
  function SessionsQuery(athleteId: Option<string>, programId: Option<string>,
                         startDate: Option<int>, endDate: Option<int>): (q: Store.Query)
    ensures q.Keys <= {"athlete_id", "program_id", "start"}
    ensures "athlete_id" in q <==> Present(athleteId)
    ensures "program_id" in q <==> Present(programId)
    ensures "start" in q <==> startDate.Some? && endDate.Some?
  {
    var q: Store.Query := map[];
    var q := if Present(athleteId) then q["athlete_id" := Store.Field(Store.Equals(Str(athleteId.value)))] else q;
    var q := if Present(programId) then q["program_id" := Store.Field(Store.Equals(Str(programId.value)))] else q;
    if startDate.Some? && endDate.Some? then
      q["start" := Store.Field(Store.Between(startDate.value, endDate.value))]
    else q
  }

  /** What the session query selects; one bound alone does not restrict the start. */
  lemma SessionsQueryMeaning(athleteId: Option<string>, programId: Option<string>,
                             startDate: Option<int>, endDate: Option<int>, d: Doc)
    ensures Store.Matches(d, SessionsQuery(athleteId, programId, startDate, endDate)) <==>
      (!Present(athleteId) || Get(d, "athlete_id") == Str(athleteId.value))
      && (!Present(programId) || Get(d, "program_id") == Str(programId.value))
      && (startDate.None? || endDate.None? ||
          (Get(d, "start").Time? && startDate.value <= Get(d, "start").t <= endDate.value))
  {
    var q := SessionsQuery(athleteId, programId, startDate, endDate);
    if Store.Matches(d, q) {
      if Present(athleteId) { assert Store.ClauseHolds(d, "athlete_id", q["athlete_id"]); }
      if Present(programId) { assert Store.ClauseHolds(d, "program_id", q["program_id"]); }
      if startDate.Some? && endDate.Some? { assert Store.ClauseHolds(d, "start", q["start"]); }
    }
  }

  /** The `athlete_id` filter of the goal, program, assessment and record lists. */
  function AthleteIdQuery(athleteId: Option<string>): (q: Store.Query)
    ensures q == map[] <==> !Present(athleteId)
    ensures forall d :: Store.Matches(d, q) <==> !Present(athleteId) || Get(d, "athlete_id") == Str(athleteId.value)
  {
    if Present(athleteId) then
      var q := map["athlete_id" := Store.Field(Store.Equals(Str(athleteId.value)))];
      assert forall d :: Store.Matches(d, q) <==> Store.ClauseHolds(d, "athlete_id", q["athlete_id"]);
      q
    else map[]
  }

  /** `get_exercises`' query: the category's wire name, when one is given. */
  function ExercisesQuery(category: Option<Enums.ExerciseCategory>): (q: Store.Query)
    ensures q == map[] <==> category.None?
    ensures forall d :: Store.Matches(d, q) <==> category.None? || Get(d, "category") == Str(category.value.Name())
  {
    if category.Some? then
      var q := map["category" := Store.Field(Store.Equals(Str(category.value.Name())))];
      assert forall d :: Store.Matches(d, q) <==> Store.ClauseHolds(d, "category", q["category"]);
      q
    else map[]
  }

  // ---- Reads ----

  /** The athletes `get_athletes` lists: each filter that is set holds. */
  predicate AthleteSelected(d: Doc, name: Option<string>, sector: Option<string>) {
    (!Present(name) || NameMatches(d, name.value))
    && (!Present(sector) || Get(d, "sector") == Str(sector.value))
  }

  function AthleteFilter(name: Option<string>, sector: Option<string>): Doc -> bool {
    d => AthleteSelected(d, name, sector)
  }

  /** The sessions `get_sessions` lists; the date range applies only with both bounds. */
  predicate SessionSelected(d: Doc, athleteId: Option<string>, programId: Option<string>,
                            startDate: Option<int>, endDate: Option<int>) {
    (!Present(athleteId) || Get(d, "athlete_id") == Str(athleteId.value))
    && (!Present(programId) || Get(d, "program_id") == Str(programId.value))
    && (startDate.None? || endDate.None? ||
        (Get(d, "start").Time? && startDate.value <= Get(d, "start").t <= endDate.value))
  }

  function SessionFilter(athleteId: Option<string>, programId: Option<string>,
                         startDate: Option<int>, endDate: Option<int>): Doc -> bool {
    d => SessionSelected(d, athleteId, programId, startDate, endDate)
  }

  /** The documents of one athlete, or all of them without an athlete. */
  function OwnerFilter(athleteId: Option<string>): Doc -> bool {
    d => !Present(athleteId) || Get(d, "athlete_id") == Str(athleteId.value)
  }

  /** The exercises of one category, or all of them without a category. */
  function CategoryFilter(category: Option<Enums.ExerciseCategory>): Doc -> bool {
    d => category.None? || Get(d, "category") == Str(category.value.Name())
  }

  lemma AthletesQuerySelects(name: Option<string>, sector: Option<string>)
    ensures forall d :: Store.Matches(d, AthletesQuery(name, sector)) <==> AthleteFilter(name, sector)(d)
  {
    forall d ensures Store.Matches(d, AthletesQuery(name, sector)) <==> AthleteFilter(name, sector)(d) {
      AthletesQueryMeaning(name, sector, d);
    }
  }

  lemma SessionsQuerySelects(athleteId: Option<string>, programId: Option<string>,
                             startDate: Option<int>, endDate: Option<int>)
    ensures forall d :: Store.Matches(d, SessionsQuery(athleteId, programId, startDate, endDate))
                        <==> SessionFilter(athleteId, programId, startDate, endDate)(d)
  {
    forall d ensures Store.Matches(d, SessionsQuery(athleteId, programId, startDate, endDate))
                     <==> SessionFilter(athleteId, programId, startDate, endDate)(d) {
      SessionsQueryMeaning(athleteId, programId, startDate, endDate, d);
    }
  }

  /**
   * A query that selects the same documents as `p` yields, through
   * `find(...).to_list(1000)`, the first 1000 documents satisfying `p` in
   * stored order.
   */
  lemma FindBySelection(c: Store.Collection, q: Store.Query, p: Doc -> bool)
    requires forall d :: Store.Matches(d, q) <==> p(d)
    ensures Store.FindDocuments(c, q) == Seqs.Take(Seqs.Filter(c, p), Store.FindLimit)
    ensures forall i :: 0 <= i < |Store.FindDocuments(c, q)| ==>
      Store.FindDocuments(c, q)[i] in c && p(Store.FindDocuments(c, q)[i])
    ensures |c| <= Store.FindLimit ==> forall d :: d in c && p(d) ==> d in Store.FindDocuments(c, q)
  {
    Seqs.FilterAgree(c, Store.MatchesQuery(q), p);
    Seqs.TakeFilter(c, p, Store.FindLimit);
  }

  /**
   * `get_athletes`: every athlete that passes both optional filters, in
   * stored order, up to the cap of 1000.
   */
  function GetAthletes(db: Db, name: Option<string>, sector: Option<string>): (r: seq<Doc>)
    ensures r == Seqs.Take(Seqs.Filter(Coll(db, "athletes"), AthleteFilter(name, sector)), Store.FindLimit)
    ensures forall i :: 0 <= i < |r| ==> r[i] in Coll(db, "athletes") && AthleteSelected(r[i], name, sector)
    ensures |Coll(db, "athletes")| <= Store.FindLimit ==>
      forall d :: d in Coll(db, "athletes") && AthleteSelected(d, name, sector) ==> d in r
  {
    var q := AthletesQuery(name, sector);
    AthletesQuerySelects(name, sector);
    FindBySelection(Coll(db, Athletes.Collection()), q, AthleteFilter(name, sector));
    Store.FindDocuments(Coll(db, Athletes.Collection()), q)
  }

  /**
   * `get_sessions`: every session that passes the optional filters, in
   * stored order, up to the cap of 1000.
   */
  function GetSessions(db: Db, athleteId: Option<string>, programId: Option<string>,
                       startDate: Option<int>, endDate: Option<int>): (r: seq<Doc>)
    ensures r == Seqs.Take(Seqs.Filter(Coll(db, "sessions"), SessionFilter(athleteId, programId, startDate, endDate)),
                           Store.FindLimit)
    ensures forall i :: 0 <= i < |r| ==>
      r[i] in Coll(db, "sessions") && SessionSelected(r[i], athleteId, programId, startDate, endDate)
    ensures |Coll(db, "sessions")| <= Store.FindLimit ==>
      forall d :: d in Coll(db, "sessions") && SessionSelected(d, athleteId, programId, startDate, endDate) ==> d in r
  {
    var c := Coll(db, "sessions");
    SessionsQuerySelects(athleteId, programId, startDate, endDate);
    FindBySelection(c, SessionsQuery(athleteId, programId, startDate, endDate),
                    SessionFilter(athleteId, programId, startDate, endDate));
    Store.FindDocuments(c, SessionsQuery(athleteId, programId, startDate, endDate))
  }

  /**
   * `get_goals`, `get_programs`, `get_assessments`, `get_records`: every
   * document of the athlete, or every document without an athlete, in
   * stored order, up to the cap of 1000.
   */
  function ListForAthlete(db: Db, res: Resource, athleteId: Option<string>): (r: seq<Doc>)
    ensures r == Seqs.Take(Seqs.Filter(Coll(db, res.Collection()), OwnerFilter(athleteId)), Store.FindLimit)
    ensures forall i :: 0 <= i < |r| ==> (r[i] in Coll(db, res.Collection())
      && (!Present(athleteId) || Get(r[i], "athlete_id") == Str(athleteId.value)))
    ensures |Coll(db, res.Collection())| <= Store.FindLimit ==>
      forall d :: d in Coll(db, res.Collection()) && (!Present(athleteId) || Get(d, "athlete_id") == Str(athleteId.value))
        ==> d in r
    ensures |Coll(db, res.Collection())| <= Store.FindLimit && !Present(athleteId) ==> r == Coll(db, res.Collection())
  {
    var c := Coll(db, res.Collection());
    FindBySelection(c, AthleteIdQuery(athleteId), OwnerFilter(athleteId));
    assert !Present(athleteId) ==> Seqs.Filter(c, OwnerFilter(athleteId)) == c by {
      if !Present(athleteId) { Seqs.FilterKeepsAll(c, OwnerFilter(athleteId)); }
    }
    Store.FindDocuments(c, AthleteIdQuery(athleteId))
  }

  /**
   * `get_exercises`: every exercise of the category, or every exercise,
   * in stored order, up to the cap of 1000.
   */
  function GetExercises(db: Db, category: Option<Enums.ExerciseCategory>): (r: seq<Doc>)
    ensures r == Seqs.Take(Seqs.Filter(Coll(db, "exercises"), CategoryFilter(category)), Store.FindLimit)
    ensures forall i :: 0 <= i < |r| ==> (r[i] in Coll(db, "exercises")
      && (category.None? || Get(r[i], "category") == Str(category.value.Name())))
    ensures |Coll(db, "exercises")| <= Store.FindLimit ==>
      forall d :: d in Coll(db, "exercises") && (category.None? || Get(d, "category") == Str(category.value.Name()))
        ==> d in r
  {
    FindBySelection(Coll(db, Exercises.Collection()), ExercisesQuery(category), CategoryFilter(category));
    Store.FindDocuments(Coll(db, Exercises.Collection()), ExercisesQuery(category))
  }

  /** `get_session_templates`: every template, up to the cap. */
  function GetSessionTemplates(db: Db): (r: seq<Doc>)
    ensures r == Seqs.Take(Coll(db, Templates.Collection()), Store.FindLimit)
    ensures |Coll(db, Templates.Collection())| <= Store.FindLimit ==> r == Coll(db, Templates.Collection())
  {
    Seqs.FilterKeepsAll(Coll(db, Templates.Collection()), Store.MatchesQuery(map[]));
    Store.FindDocuments(Coll(db, Templates.Collection()), map[])
  }

  /** `get_athlete`: the athlete with the id, or 404. */
  function GetAthlete(db: Db, id: string): (r: Result<Doc, ServerAuth.HttpError>)
    ensures r.Err? <==> !exists i :: 0 <= i < |Coll(db, "athletes")| && Store.HasId(Coll(db, "athletes")[i], id)
    ensures r.Err? ==> r.error == ServerAuth.HttpError(404, "Athlete not found")
    ensures r.Ok? ==> Store.HasId(r.value, id) && r.value in Coll(db, "athletes")
  {
    match Store.GetDocument(Coll(db, Athletes.Collection()), id)
    case None => Err(Athletes.NotFound())
    case Some(d) => Ok(d)
  }

  // ---- Writes ----

  /**
   * The create handlers: the entity's serialisation, stamped with the
   * creation time, is appended to its collection and returned.
   */
  function CreateEntity(db: Db, res: Resource, doc: Doc, now: int): (r: (Db, Doc))
    ensures Coll(r.0, res.Collection()) == Coll(db, res.Collection()) + [r.1]
    ensures r.1 == Store.CreateDocument([], doc, now).1
    ensures forall other :: other != res.Collection() ==> Coll(r.0, other) == Coll(db, other)
  {
    var (c, stored) := Store.CreateDocument(Coll(db, res.Collection()), doc, now);
    (Put(db, res.Collection(), c), stored)
  }

  /** `{k: v for k, v in update.dict().items() if v is not None}`. */
  function NonNull(d: Doc): (r: Doc)
    ensures forall k :: k in r <==> k in d && d[k] != Null
    ensures forall k :: k in r ==> r[k] == d[k]
  {
    map k | k in d && d[k] != Null :: d[k]
  }

  /**
   * The update handlers (goals, programs, sessions, exercises,
   * assessments): the non-null fields are written to the document with the
   * id, then 404 when none matched.
   */
  function UpdateEntity(db: Db, res: Resource, id: string, update: Doc, now: int): (r: (Db, Result<Doc, ServerAuth.HttpError>))
    requires "id" !in update
    ensures Store.GetDocument(Coll(db, res.Collection()), id).None? ==> r == (db, Err(res.NotFound()))
    ensures Store.GetDocument(Coll(db, res.Collection()), id).Some? ==>
      r.1 == Ok(Store.SetFields(Store.GetDocument(Coll(db, res.Collection()), id).value, NonNull(update), now))
      && r.1.value in Coll(r.0, res.Collection())
    ensures |Coll(r.0, res.Collection())| == |Coll(db, res.Collection())|
    ensures Store.FirstMatch(Coll(db, res.Collection()), Store.WithId(id)).Some? ==>
      (var c, k := Coll(db, res.Collection()), Store.FirstMatch(Coll(db, res.Collection()), Store.WithId(id)).value;
       Coll(r.0, res.Collection()) == c[k := Store.SetFields(c[k], NonNull(update), now)])
    ensures forall other :: other != res.Collection() ==> Coll(r.0, other) == Coll(db, other)
  {
    var c := Coll(db, res.Collection());
    var (c', updated) := Store.UpdateDocument(c, id, NonNull(update), now);
    match updated
    case None => (Put(db, res.Collection(), c'), Err(res.NotFound()))
    case Some(d) => (Put(db, res.Collection(), c'), Ok(d))
  }

  /**
   * A partial update: every field sent with a value is overwritten, every
   * field sent as null or not sent keeps its stored value, and `updated_at`
   * is the time of the update.
   */
  lemma PartialUpdate(stored: Doc, update: Doc, now: int)
    ensures var d := Store.SetFields(stored, NonNull(update), now);
      d["updated_at"] == Time(now)
      && (forall k :: k in update && update[k] != Null && k != "updated_at" ==> Get(d, k) == update[k])
      && (forall k :: (k !in update || update[k] == Null) && k != "updated_at" ==> Get(d, k) == Get(stored, k))
  {
  }

  /**
   * `update_athlete`: checks that the athlete exists before writing, then
   * writes the non-null fields of `update` (the serialised `AthleteUpdate`).
   */
  function UpdateAthlete(db: Db, id: string, update: Doc, now: int): (r: (Db, Result<Doc, ServerAuth.HttpError>))
    requires "id" !in update
    ensures Store.GetDocument(Coll(db, "athletes"), id).None? ==> r == (db, Err(ServerAuth.HttpError(404, "Athlete not found")))
    ensures Store.GetDocument(Coll(db, "athletes"), id).Some? ==>
      r.1 == Ok(Store.SetFields(Store.GetDocument(Coll(db, "athletes"), id).value, NonNull(update), now))
      && r.1.value in Coll(r.0, "athletes")
    ensures Store.FirstMatch(Coll(db, "athletes"), Store.WithId(id)).Some? ==>
      (var c, k := Coll(db, "athletes"), Store.FirstMatch(Coll(db, "athletes"), Store.WithId(id)).value;
       Coll(r.0, "athletes") == c[k := Store.SetFields(c[k], NonNull(update), now)])
    ensures forall other :: other != "athletes" ==> Coll(r.0, other) == Coll(db, other)
  {
    if Store.GetDocument(Coll(db, Athletes.Collection()), id).None? then
      assert Athletes.NotFound().detail == "Athlete not found";
      (db, Err(Athletes.NotFound()))
    else
      var (c', updated) := Store.UpdateDocument(Coll(db, Athletes.Collection()), id, NonNull(update), now);
      (Put(db, Athletes.Collection(), c'), if updated.Some? then Ok(updated.value) else Err(InternalError))
  }

  /** Checking existence first or writing first gives the same outcome for an athlete update. */
  lemma UpdateAthleteAsOtherUpdates(db: Db, id: string, update: Doc, now: int)
    requires "id" !in update
    ensures UpdateAthlete(db, id, update, now) == UpdateEntity(db, Athletes, id, update, now)
  {
  }

  /** The delete handlers: removes the document with the id, or 404. */
  function DeleteEntity(db: Db, res: Resource, id: string): (r: (Db, Result<string, ServerAuth.HttpError>))
    ensures Store.GetDocument(Coll(db, res.Collection()), id).None? <==> r.1 == Err(res.NotFound())
    ensures r.1.Err? ==> r.0 == db
    ensures r.1.Ok? ==> (r.1.value == res.Noun() + " deleted successfully"
      && |Coll(r.0, res.Collection())| == |Coll(db, res.Collection())| - 1)
    ensures Store.FirstMatch(Coll(db, res.Collection()), Store.WithId(id)).Some? ==>
      (var c, k := Coll(db, res.Collection()), Store.FirstMatch(Coll(db, res.Collection()), Store.WithId(id)).value;
       r.1.Ok? && Coll(r.0, res.Collection()) == c[..k] + c[k+1..])
    ensures forall other :: other != res.Collection() ==> Coll(r.0, other) == Coll(db, other)
  {
    var (c', deleted) := Store.DeleteDocument(Coll(db, res.Collection()), id);
    if deleted then (Put(db, res.Collection(), c'), Ok(res.Noun() + " deleted successfully"))
    else (db, Err(res.NotFound()))
  }
}
