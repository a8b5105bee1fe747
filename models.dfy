/**
 * The backend's Pydantic models. Every stored entity is the common base
 * (`Meta`: id and the two timestamps) plus the fields of its `...Create`
 * model plus the fields the server fills in with defaults. `...Doc`
 * functions give the dictionary `.dict()` produces, which is what the
 * handlers store.
 */
module Models {
  import opened Wrappers
  import opened Values
  import opened Enums

  /** `BaseDBModel`: a fresh uuid and two `utcnow()` stamps. */
  datatype Meta = Meta(id: string, createdAt: int, updatedAt: int)

  datatype User = User(meta: Meta, role: UserRole, email: string, hashedPassword: string,
                       firstName: string, lastName: string)

  datatype UserCreate = UserCreate(role: UserRole, email: string, password: string,
                                   firstName: string, lastName: string)

  datatype UserResponse = UserResponse(id: string, role: UserRole, email: string,
                                       firstName: string, lastName: string, createdAt: int)

  datatype Injury = Injury(date: int, kind: string, notes: Option<string> := None)

  datatype AthleteCreate = AthleteCreate(
    firstName: string,
    lastName: string,
    birthDate: Option<int> := None,
    sex: Option<Sex> := None,
    heightCm: Option<real> := None,
    weightKg: Option<real> := None,
    specialties: seq<string> := [],
    sector: Option<string> := None,
    photoUrl: Option<string> := None,
    category: Option<string> := None,
    coachName: Option<string> := None,
    club: Option<string> := None,
    notes: Option<string> := None,
    healthStatus: Option<string> := None,
    strengths: seq<string> := [],
    weaknesses: seq<string> := [],
    injuries: seq<Injury> := [],
    allergiesLimitations: seq<string> := [])

  datatype Athlete = Athlete(meta: Meta, data: AthleteCreate, userId: Option<string> := None)

  datatype AthleteUpdate = AthleteUpdate(
    firstName: Option<string> := None,
    lastName: Option<string> := None,
    birthDate: Option<int> := None,
    sex: Option<Sex> := None,
    heightCm: Option<real> := None,
    weightKg: Option<real> := None,
    specialties: Option<seq<string>> := None,
    sector: Option<string> := None,
    photoUrl: Option<string> := None,
    category: Option<string> := None,
    coachName: Option<string> := None,
    club: Option<string> := None,
    notes: Option<string> := None,
    healthStatus: Option<string> := None,
    strengths: Option<seq<string>> := None,
    weaknesses: Option<seq<string>> := None,
    injuries: Option<seq<Injury>> := None,
    allergiesLimitations: Option<seq<string>> := None)

  datatype PersonalRecordCreate = PersonalRecordCreate(
    athleteId: string, discipline: string, value: string, date: int, notes: Option<string> := None)

  datatype PersonalRecord = PersonalRecord(meta: Meta, data: PersonalRecordCreate)

  datatype GoalCreate = GoalCreate(
    athleteId: string,
    name: string,
    kind: GoalType,
    description: Option<string> := None,
    startDate: int,
    endDate: int,
    priority: Priority,
    initialValue: Option<string> := None,
    targetValue: Option<string> := None,
    currentValue: Option<string> := None)

  datatype Goal = Goal(meta: Meta, data: GoalCreate, status: GoalStatus := GoalStatus.Active)

  datatype GoalUpdate = GoalUpdate(
    name: Option<string> := None,
    kind: Option<GoalType> := None,
    description: Option<string> := None,
    startDate: Option<int> := None,
    endDate: Option<int> := None,
    priority: Option<Priority> := None,
    initialValue: Option<string> := None,
    targetValue: Option<string> := None,
    currentValue: Option<string> := None,
    status: Option<GoalStatus> := None)

  datatype ProgramCreate = ProgramCreate(
    athleteId: string,
    goalId: Option<string> := None,
    name: string,
    startDate: int,
    endDate: int,
    weeklyFrequency: int,
    structureText: Option<string> := None,
    notes: Option<string> := None)

  datatype Program = Program(meta: Meta, data: ProgramCreate, status: ProgramStatus := ProgramStatus.Draft)

  datatype ProgramUpdate = ProgramUpdate(
    goalId: Option<string> := None,
    name: Option<string> := None,
    startDate: Option<int> := None,
    endDate: Option<int> := None,
    weeklyFrequency: Option<int> := None,
    structureText: Option<string> := None,
    status: Option<ProgramStatus> := None,
    notes: Option<string> := None)

  datatype SessionCreate = SessionCreate(
    programId: string,
    athleteId: string,
    title: string,
    kind: SessionType,
    start: int,
    end: int,
    intensity: Option<int> := None,
    tags: seq<string> := [],
    notes: Option<string> := None)

  datatype Session = Session(meta: Meta, data: SessionCreate,
                             status: SessionStatus := SessionStatus.Draft,
                             rpe: Option<int> := None, durationMin: Option<int> := None)

  datatype SessionUpdate = SessionUpdate(
    title: Option<string> := None,
    kind: Option<SessionType> := None,
    start: Option<int> := None,
    end: Option<int> := None,
    intensity: Option<int> := None,
    tags: Option<seq<string>> := None,
    status: Option<SessionStatus> := None,
    notes: Option<string> := None,
    rpe: Option<int> := None,
    durationMin: Option<int> := None)

  datatype ExerciseCreate = ExerciseCreate(
    name: string,
    category: ExerciseCategory,
    muscles: seq<string> := [],
    description: Option<string> := None,
    videoUrl: Option<string> := None)

  datatype Exercise = Exercise(meta: Meta, data: ExerciseCreate)

  datatype ExerciseUpdate = ExerciseUpdate(
    name: Option<string> := None,
    category: Option<ExerciseCategory> := None,
    muscles: Option<seq<string>> := None,
    description: Option<string> := None,
    videoUrl: Option<string> := None)

  /** The ten assessment scores, in the order the series endpoint lists them. */
  const ScoreFields: seq<string> := [
    "strength_max", "strength_endurance", "strength_explosive", "speed_linear", "agility",
    "power", "mobility", "endurance_aerobic", "endurance_lactate", "icm"]

  datatype PhysicalAssessmentCreate = PhysicalAssessmentCreate(
    athleteId: string,
    date: int,
    strengthMax: Option<int> := None,
    strengthEndurance: Option<int> := None,
    strengthExplosive: Option<int> := None,
    speedLinear: Option<int> := None,
    agility: Option<int> := None,
    power: Option<int> := None,
    mobility: Option<int> := None,
    enduranceAerobic: Option<int> := None,
    enduranceLactate: Option<int> := None,
    icm: Option<int> := None,
    notes: Option<string> := None)

  datatype PhysicalAssessment = PhysicalAssessment(meta: Meta, data: PhysicalAssessmentCreate)

  datatype EventCreate = EventCreate(name: string, place: Option<string> := None, date: int,
                                     notes: Option<string> := None)

  datatype Event = Event(meta: Meta, data: EventCreate)

  datatype SessionTemplateCreate = SessionTemplateCreate(
    name: string,
    kind: SessionType,
    description: Option<string> := None,
    durationMin: int,
    intensity: Option<int> := None,
    tags: seq<string> := [],
    exercises: seq<map<string, Value>> := [])

  datatype SessionTemplate = SessionTemplate(meta: Meta, data: SessionTemplateCreate)

  datatype Token = Token(accessToken: string, tokenType: string)

  datatype TokenData = TokenData(userId: Option<string> := None, email: Option<string> := None,
                                 role: Option<UserRole> := None)

  datatype LoginRequest = LoginRequest(email: string, password: string)

  /** `sessions_count_by_type` is keyed by the stored `type` value. */
  datatype AthleteOverview = AthleteOverview(weeklyVolume: int, intensityAvg: real,
                                             sessionsCountByType: map<Value, int>,
                                             nextEvents: seq<Event>)

  /** One column per score, all as long as `dates`; a missing score is `null`. */
  datatype AssessmentSeries = AssessmentSeries(dates: seq<int>, scores: seq<seq<Value>>)

  // ---- Construction from the request models (`Entity(**create.dict())`) ----

  function NewAthlete(c: AthleteCreate, m: Meta): Athlete { Athlete.Athlete(m, c) }
  function NewRecord(c: PersonalRecordCreate, m: Meta): PersonalRecord { PersonalRecord(m, c) }
  function NewGoal(c: GoalCreate, m: Meta): Goal { Goal(m, c) }
  function NewProgram(c: ProgramCreate, m: Meta): Program { Program(m, c) }
  function NewSession(c: SessionCreate, m: Meta): Session { Session(m, c) }
  function NewExercise(c: ExerciseCreate, m: Meta): Exercise { Exercise(m, c) }
  function NewAssessment(c: PhysicalAssessmentCreate, m: Meta): PhysicalAssessment { PhysicalAssessment(m, c) }
  function NewTemplate(c: SessionTemplateCreate, m: Meta): SessionTemplate { SessionTemplate(m, c) }

  /**
   * Registration builds the stored user from the request: the password is
   * replaced by its hash, everything else is kept.
   */
  function NewUser(c: UserCreate, hashed: string, m: Meta): (u: User)
    ensures u.meta == m && u.hashedPassword == hashed
    ensures u.role == c.role && u.email == c.email
    ensures u.firstName == c.firstName && u.lastName == c.lastName
  {
    User(m, c.role, c.email, hashed, c.firstName, c.lastName)
  }

  /** The user as returned to clients: no password hash in any form. */
  function ToResponse(u: User): UserResponse
  {
    UserResponse(u.meta.id, u.role, u.email, u.firstName, u.lastName, u.meta.createdAt)
  }

  // ---- Serialisation (`.dict()`) ----

  function MetaDoc(m: Meta): Doc
  {
    map["id" := Str(m.id), "created_at" := Time(m.createdAt), "updated_at" := Time(m.updatedAt)]
  }

  function UserDoc(u: User): Doc
  {
    MetaDoc(u.meta) + map[
      "role" := Str(u.role.Name()), "email" := Str(u.email),
      "hashed_password" := Str(u.hashedPassword),
      "first_name" := Str(u.firstName), "last_name" := Str(u.lastName)]
  }

  function ResponseDoc(r: UserResponse): Doc
  {
    map["id" := Str(r.id), "role" := Str(r.role.Name()), "email" := Str(r.email),
        "first_name" := Str(r.firstName), "last_name" := Str(r.lastName),
        "created_at" := Time(r.createdAt)]
  }

  function InjuryValue(i: Injury): Value
  {
    Obj(map["date" := Time(i.date), "type" := Str(i.kind), "notes" := OptStr(i.notes)])
  }

  function InjuryList(s: seq<Injury>): Value
  {
    List(seq(|s|, i requires 0 <= i < |s| => InjuryValue(s[i])))
  }

  function SexValue(o: Option<Sex>): Value { Opt(o, (x: Sex) => Str(x.Name())) }

  function AthleteCreateDoc(c: AthleteCreate): Doc
  {
    map["first_name" := Str(c.firstName), "last_name" := Str(c.lastName),
        "birth_date" := OptTime(c.birthDate), "sex" := SexValue(c.sex),
        "height_cm" := OptReal(c.heightCm), "weight_kg" := OptReal(c.weightKg),
        "specialties" := StrList(c.specialties), "sector" := OptStr(c.sector),
        "photo_url" := OptStr(c.photoUrl), "category" := OptStr(c.category),
        "coach_name" := OptStr(c.coachName), "club" := OptStr(c.club),
        "notes" := OptStr(c.notes), "health_status" := OptStr(c.healthStatus),
        "strengths" := StrList(c.strengths), "weaknesses" := StrList(c.weaknesses),
        "injuries" := InjuryList(c.injuries),
        "allergies_limitations" := StrList(c.allergiesLimitations)]
  }

  function AthleteDoc(a: Athlete): Doc
  {
    MetaDoc(a.meta) + AthleteCreateDoc(a.data) + map["user_id" := OptStr(a.userId)]
  }

  function AthleteUpdateDoc(u: AthleteUpdate): Doc
  {
    map["first_name" := OptStr(u.firstName), "last_name" := OptStr(u.lastName),
        "birth_date" := OptTime(u.birthDate), "sex" := SexValue(u.sex),
        "height_cm" := OptReal(u.heightCm), "weight_kg" := OptReal(u.weightKg),
        "specialties" := Opt(u.specialties, StrList), "sector" := OptStr(u.sector),
        "photo_url" := OptStr(u.photoUrl), "category" := OptStr(u.category),
        "coach_name" := OptStr(u.coachName), "club" := OptStr(u.club),
        "notes" := OptStr(u.notes), "health_status" := OptStr(u.healthStatus),
        "strengths" := Opt(u.strengths, StrList), "weaknesses" := Opt(u.weaknesses, StrList),
        "injuries" := Opt(u.injuries, InjuryList),
        "allergies_limitations" := Opt(u.allergiesLimitations, StrList)]
  }

  function RecordDoc(r: PersonalRecord): Doc
  {
    MetaDoc(r.meta) + map[
      "athlete_id" := Str(r.data.athleteId), "discipline" := Str(r.data.discipline),
      "value" := Str(r.data.value), "date" := Time(r.data.date), "notes" := OptStr(r.data.notes)]
  }

  function GoalDoc(g: Goal): Doc
  {
    var c := g.data;
    MetaDoc(g.meta) + map[
      "athlete_id" := Str(c.athleteId), "name" := Str(c.name), "type" := Str(c.kind.Name()),
      "description" := OptStr(c.description), "start_date" := Time(c.startDate),
      "end_date" := Time(c.endDate), "priority" := Str(c.priority.Name()),
      "initial_value" := OptStr(c.initialValue), "target_value" := OptStr(c.targetValue),
      "current_value" := OptStr(c.currentValue), "status" := Str(g.status.Name())]
  }

  function GoalUpdateDoc(u: GoalUpdate): Doc
  {
    map["name" := OptStr(u.name), "type" := Opt(u.kind, (t: GoalType) => Str(t.Name())),
        "description" := OptStr(u.description), "start_date" := OptTime(u.startDate),
        "end_date" := OptTime(u.endDate),
        "priority" := Opt(u.priority, (p: Priority) => Str(p.Name())),
        "initial_value" := OptStr(u.initialValue), "target_value" := OptStr(u.targetValue),
        "current_value" := OptStr(u.currentValue),
        "status" := Opt(u.status, (s: GoalStatus) => Str(s.Name()))]
  }

  function ProgramDoc(p: Program): Doc
  {
    var c := p.data;
    MetaDoc(p.meta) + map[
      "athlete_id" := Str(c.athleteId), "goal_id" := OptStr(c.goalId), "name" := Str(c.name),
      "start_date" := Time(c.startDate), "end_date" := Time(c.endDate),
      "weekly_frequency" := Int(c.weeklyFrequency), "structure_text" := OptStr(c.structureText),
      "status" := Str(p.status.Name()), "notes" := OptStr(c.notes)]
  }

  function ProgramUpdateDoc(u: ProgramUpdate): Doc
  {
    map["goal_id" := OptStr(u.goalId), "name" := OptStr(u.name),
        "start_date" := OptTime(u.startDate), "end_date" := OptTime(u.endDate),
        "weekly_frequency" := OptInt(u.weeklyFrequency),
        "structure_text" := OptStr(u.structureText),
        "status" := Opt(u.status, (s: ProgramStatus) => Str(s.Name())),
        "notes" := OptStr(u.notes)]
  }

  function SessionDoc(s: Session): Doc
  {
    var c := s.data;
    MetaDoc(s.meta) + map[
      "program_id" := Str(c.programId), "athlete_id" := Str(c.athleteId),
      "title" := Str(c.title), "type" := Str(c.kind.Name()), "start" := Time(c.start),
      "end" := Time(c.end), "intensity" := OptInt(c.intensity), "tags" := StrList(c.tags),
      "status" := Str(s.status.Name()), "notes" := OptStr(c.notes),
      "rpe" := OptInt(s.rpe), "duration_min" := OptInt(s.durationMin)]
  }

  function SessionUpdateDoc(u: SessionUpdate): Doc
  {
    map["title" := OptStr(u.title), "type" := Opt(u.kind, (t: SessionType) => Str(t.Name())),
        "start" := OptTime(u.start), "end" := OptTime(u.end),
        "intensity" := OptInt(u.intensity), "tags" := Opt(u.tags, StrList),
        "status" := Opt(u.status, (s: SessionStatus) => Str(s.Name())),
        "notes" := OptStr(u.notes), "rpe" := OptInt(u.rpe),
        "duration_min" := OptInt(u.durationMin)]
  }

  function ExerciseDoc(e: Exercise): Doc
  {
    var c := e.data;
    MetaDoc(e.meta) + map[
      "name" := Str(c.name), "category" := Str(c.category.Name()),
      "muscles" := StrList(c.muscles), "description" := OptStr(c.description),
      "video_url" := OptStr(c.videoUrl)]
  }

  function ExerciseUpdateDoc(u: ExerciseUpdate): Doc
  {
    map["name" := OptStr(u.name),
        "category" := Opt(u.category, (c: ExerciseCategory) => Str(c.Name())),
        "muscles" := Opt(u.muscles, StrList), "description" := OptStr(u.description),
        "video_url" := OptStr(u.videoUrl)]
  }

  function AssessmentCreateDoc(c: PhysicalAssessmentCreate): Doc
  {
    map["athlete_id" := Str(c.athleteId), "date" := Time(c.date),
        "strength_max" := OptInt(c.strengthMax),
        "strength_endurance" := OptInt(c.strengthEndurance),
        "strength_explosive" := OptInt(c.strengthExplosive),
        "speed_linear" := OptInt(c.speedLinear), "agility" := OptInt(c.agility),
        "power" := OptInt(c.power), "mobility" := OptInt(c.mobility),
        "endurance_aerobic" := OptInt(c.enduranceAerobic),
        "endurance_lactate" := OptInt(c.enduranceLactate), "icm" := OptInt(c.icm),
        "notes" := OptStr(c.notes)]
  }

  function AssessmentDoc(a: PhysicalAssessment): Doc
  {
    MetaDoc(a.meta) + AssessmentCreateDoc(a.data)
  }

  function TemplateDoc(t: SessionTemplate): Doc
  {
    var c := t.data;
    MetaDoc(t.meta) + map[
      "name" := Str(c.name), "type" := Str(c.kind.Name()),
      "description" := OptStr(c.description), "duration_min" := Int(c.durationMin),
      "intensity" := OptInt(c.intensity), "tags" := StrList(c.tags),
      "exercises" := List(seq(|c.exercises|, i requires 0 <= i < |c.exercises| => Obj(c.exercises[i])))]
  }

  // ---- Properties of the models ----

  /** The stored user document: the base fields, the profile and the hash, and no password. */
  lemma UserDocFields(u: User)
    ensures var d := UserDoc(u);
      d.Keys == {"id", "created_at", "updated_at", "role", "email", "hashed_password", "first_name", "last_name"}
      && d["id"] == Str(u.meta.id) && d["role"] == Str(u.role.Name()) && d["email"] == Str(u.email)
      && d["hashed_password"] == Str(u.hashedPassword)
  {
  }

  /** A user response carries the stored user's identity and never its password hash. */
  lemma ResponseOmitsPassword(u: User)
    ensures var r := ResponseDoc(ToResponse(u));
      "hashed_password" !in r && "password" !in r
      && r["id"] == Str(u.meta.id) && r["email"] == Str(u.email)
      && r["role"] == Str(u.role.Name()) && r["created_at"] == Time(u.meta.createdAt)
  {
  }

  /** A goal created from a request starts `active`, with the request's fields. */
  lemma NewGoalIsActive(c: GoalCreate, m: Meta)
    ensures var d := GoalDoc(NewGoal(c, m));
      d["status"] == Str("active") && d["athlete_id"] == Str(c.athleteId)
      && d["id"] == Str(m.id) && d["priority"] == Str(c.priority.Name())
  {
  }

  /** A program created from a request starts as a `draft`. */
  lemma NewProgramIsDraft(c: ProgramCreate, m: Meta)
    ensures var d := ProgramDoc(NewProgram(c, m));
      d["status"] == Str("draft") && d["athlete_id"] == Str(c.athleteId) && d["id"] == Str(m.id)
  {
  }

  /**
   * A session created from a request starts as a `draft` with no RPE and no
   * duration; its intensity is stored as sent, `null` when the request has none.
   */
  lemma NewSessionIsDraft(c: SessionCreate, m: Meta)
    ensures var d := SessionDoc(NewSession(c, m));
      d["status"] == Str("draft") && d["rpe"] == Null && d["duration_min"] == Null
      && (c.intensity.None? ==> d["intensity"] == Null)
      && d["type"] == Str(c.kind.Name()) && d["start"] == Time(c.start)
      && d["athlete_id"] == Str(c.athleteId)
  {
  }
}
