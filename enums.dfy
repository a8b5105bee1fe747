/**
 * The enumerations shared by the backend models and the frontend's typed
 * interfaces. Each constructor's `Name()` is the string it travels as in
 * JSON and in the stored documents; each `Parse...` is the inverse mapping
 * applied when a request body or a query parameter is validated.
 */
module Enums {
  import opened Wrappers
  import Seqs

  datatype UserRole = Coach | Athlete {
    function Name(): string {
      match this
      case Coach => "coach"
      case Athlete => "athlete"
    }
  }

  datatype Sex = Male | Female | Other {
    function Name(): string {
      match this
      case Male => "male"
      case Female => "female"
      case Other => "other"
    }
  }

  datatype GoalType = Performance | Technical | Physical | Health | Other {
    function Name(): string {
      match this
      case Performance => "performance"
      case Technical => "technical"
      case Physical => "physical"
      case Health => "health"
      case Other => "other"
    }
  }

  datatype Priority = High | Medium | Low {
    function Name(): string {
      match this
      case High => "high"
      case Medium => "medium"
      case Low => "low"
    }
  }

  datatype GoalStatus = Active | Achieved | Failed | Abandoned | Postponed {
    function Name(): string {
      match this
      case Active => "active"
      case Achieved => "achieved"
      case Failed => "failed"
      case Abandoned => "abandoned"
      case Postponed => "postponed"
    }
  }

  datatype ProgramStatus = Draft | Active | Completed | Canceled {
    function Name(): string {
      match this
      case Draft => "draft"
      case Active => "active"
      case Completed => "completed"
      case Canceled => "canceled"
    }
  }

  datatype SessionType = Gym | Technique | Speed | Endurance | Rest | Other {
    function Name(): string {
      match this
      case Gym => "gym"
      case Technique => "technique"
      case Speed => "speed"
      case Endurance => "endurance"
      case Rest => "rest"
      case Other => "other"
    }
  }

  datatype SessionStatus = Draft | Scheduled | Done | Canceled {
    function Name(): string {
      match this
      case Draft => "draft"
      case Scheduled => "scheduled"
      case Done => "done"
      case Canceled => "canceled"
    }
  }

  datatype ExerciseCategory = Legs | Push | Pull | Core | Olympic | Mobility | Other {
    function Name(): string {
      match this
      case Legs => "legs"
      case Push => "push"
      case Pull => "pull"
      case Core => "core"
      case Olympic => "olympic"
      case Mobility => "mobility"
      case Other => "other"
    }
  }

  /** Every member of each enumeration, in declaration order. */
  const UserRoles: seq<UserRole> := [UserRole.Coach, UserRole.Athlete]
  const Sexes: seq<Sex> := [Male, Female, Sex.Other]
  const GoalTypes: seq<GoalType> := [Performance, Technical, Physical, Health, GoalType.Other]
  const Priorities: seq<Priority> := [High, Medium, Low]
  const GoalStatuses: seq<GoalStatus> := [GoalStatus.Active, Achieved, Failed, Abandoned, Postponed]
  const ProgramStatuses: seq<ProgramStatus> :=
    [ProgramStatus.Draft, ProgramStatus.Active, Completed, ProgramStatus.Canceled]
  const SessionTypes: seq<SessionType> := [Gym, Technique, Speed, Endurance, Rest, SessionType.Other]
  const SessionStatuses: seq<SessionStatus> :=
    [SessionStatus.Draft, Scheduled, Done, SessionStatus.Canceled]
  const ExerciseCategories: seq<ExerciseCategory> :=
    [Legs, Push, Pull, Core, Olympic, Mobility, ExerciseCategory.Other]

  /** The enumeration domains: each list holds every member of its enumeration. */
  lemma EnumDomains()
    ensures |UserRoles| == 2 && (forall r: UserRole :: r in UserRoles)
    ensures |Sexes| == 3 && (forall x: Sex :: x in Sexes)
    ensures |GoalTypes| == 5 && (forall t: GoalType :: t in GoalTypes)
    ensures |Priorities| == 3 && (forall p: Priority :: p in Priorities)
    ensures |GoalStatuses| == 5 && (forall g: GoalStatus :: g in GoalStatuses)
    ensures |ProgramStatuses| == 4 && (forall p: ProgramStatus :: p in ProgramStatuses)
    ensures |SessionTypes| == 6 && (forall t: SessionType :: t in SessionTypes)
    ensures |SessionStatuses| == 4 && (forall s: SessionStatus :: s in SessionStatuses)
    ensures |ExerciseCategories| == 7 && (forall c: ExerciseCategory :: c in ExerciseCategories)
  {
    forall x: UserRole ensures x in UserRoles {
      match x
      case Coach => assert x == UserRoles[0];
      case Athlete => assert x == UserRoles[1];
    }
    forall x: Sex ensures x in Sexes {
      match x
      case Male => assert x == Sexes[0];
      case Female => assert x == Sexes[1];
      case Other => assert x == Sexes[2];
    }
    forall x: GoalType ensures x in GoalTypes {
      match x
      case Performance => assert x == GoalTypes[0];
      case Technical => assert x == GoalTypes[1];
      case Physical => assert x == GoalTypes[2];
      case Health => assert x == GoalTypes[3];
      case Other => assert x == GoalTypes[4];
    }
    forall x: Priority ensures x in Priorities {
      match x
      case High => assert x == Priorities[0];
      case Medium => assert x == Priorities[1];
      case Low => assert x == Priorities[2];
    }
    forall x: GoalStatus ensures x in GoalStatuses {
      match x
      case Active => assert x == GoalStatuses[0];
      case Achieved => assert x == GoalStatuses[1];
      case Failed => assert x == GoalStatuses[2];
      case Abandoned => assert x == GoalStatuses[3];
      case Postponed => assert x == GoalStatuses[4];
    }
    forall x: ProgramStatus ensures x in ProgramStatuses {
      match x
      case Draft => assert x == ProgramStatuses[0];
      case Active => assert x == ProgramStatuses[1];
      case Completed => assert x == ProgramStatuses[2];
      case Canceled => assert x == ProgramStatuses[3];
    }
    forall x: SessionType ensures x in SessionTypes {
      match x
      case Gym => assert x == SessionTypes[0];
      case Technique => assert x == SessionTypes[1];
      case Speed => assert x == SessionTypes[2];
      case Endurance => assert x == SessionTypes[3];
      case Rest => assert x == SessionTypes[4];
      case Other => assert x == SessionTypes[5];
    }
    forall x: SessionStatus ensures x in SessionStatuses {
      match x
      case Draft => assert x == SessionStatuses[0];
      case Scheduled => assert x == SessionStatuses[1];
      case Done => assert x == SessionStatuses[2];
      case Canceled => assert x == SessionStatuses[3];
    }
    forall x: ExerciseCategory ensures x in ExerciseCategories {
      match x
      case Legs => assert x == ExerciseCategories[0];
      case Push => assert x == ExerciseCategories[1];
      case Pull => assert x == ExerciseCategories[2];
      case Core => assert x == ExerciseCategories[3];
      case Olympic => assert x == ExerciseCategories[4];
      case Mobility => assert x == ExerciseCategories[5];
      case Other => assert x == ExerciseCategories[6];
    }
  }

  /** Validation of a role string: the member whose wire name it is, if any. */
  function ParseUserRole(s: string): (r: Option<UserRole>)
    ensures forall x: UserRole :: r == Some(x) <==> x.Name() == s
  {
    if s == "coach" then Some(UserRole.Coach)
    else if s == "athlete" then Some(UserRole.Athlete)
    else None
  }

  function ParseSex(s: string): (r: Option<Sex>)
    ensures forall x: Sex :: r == Some(x) <==> x.Name() == s
  {
    if s == "male" then Some(Male)
    else if s == "female" then Some(Female)
    else if s == "other" then Some(Sex.Other)
    else None
  }

  function ParseGoalType(s: string): (r: Option<GoalType>)
    ensures forall x: GoalType :: r == Some(x) <==> x.Name() == s
  {
    if s == "performance" then Some(Performance)
    else if s == "technical" then Some(Technical)
    else if s == "physical" then Some(Physical)
    else if s == "health" then Some(Health)
    else if s == "other" then Some(GoalType.Other)
    else None
  }

  function ParsePriority(s: string): (r: Option<Priority>)
    ensures forall x: Priority :: r == Some(x) <==> x.Name() == s
  {
    if s == "high" then Some(High)
    else if s == "medium" then Some(Medium)
    else if s == "low" then Some(Low)
    else None
  }

  function ParseGoalStatus(s: string): (r: Option<GoalStatus>)
    ensures forall x: GoalStatus :: r == Some(x) <==> x.Name() == s
  {
    if s == "active" then Some(GoalStatus.Active)
    else if s == "achieved" then Some(Achieved)
    else if s == "failed" then Some(Failed)
    else if s == "abandoned" then Some(Abandoned)
    else if s == "postponed" then Some(Postponed)
    else None
  }

  function ParseProgramStatus(s: string): (r: Option<ProgramStatus>)
    ensures forall x: ProgramStatus :: r == Some(x) <==> x.Name() == s
  {
    if s == "draft" then Some(ProgramStatus.Draft)
    else if s == "active" then Some(ProgramStatus.Active)
    else if s == "completed" then Some(Completed)
    else if s == "canceled" then Some(ProgramStatus.Canceled)
    else None
  }

  function ParseSessionType(s: string): (r: Option<SessionType>)
    ensures forall x: SessionType :: r == Some(x) <==> x.Name() == s
  {
    if s == "gym" then Some(Gym)
    else if s == "technique" then Some(Technique)
    else if s == "speed" then Some(Speed)
    else if s == "endurance" then Some(Endurance)
    else if s == "rest" then Some(Rest)
    else if s == "other" then Some(SessionType.Other)
    else None
  }

  function ParseSessionStatus(s: string): (r: Option<SessionStatus>)
    ensures forall x: SessionStatus :: r == Some(x) <==> x.Name() == s
  {
    if s == "draft" then Some(SessionStatus.Draft)
    else if s == "scheduled" then Some(Scheduled)
    else if s == "done" then Some(Done)
    else if s == "canceled" then Some(SessionStatus.Canceled)
    else None
  }

  function ParseExerciseCategory(s: string): (r: Option<ExerciseCategory>)
    ensures forall x: ExerciseCategory :: r == Some(x) <==> x.Name() == s
  {
    if s == "legs" then Some(Legs)
    else if s == "push" then Some(Push)
    else if s == "pull" then Some(Pull)
    else if s == "core" then Some(Core)
    else if s == "olympic" then Some(Olympic)
    else if s == "mobility" then Some(Mobility)
    else if s == "other" then Some(ExerciseCategory.Other)
    else None
  }

  /**
   * No two members of one enumeration share a wire name: the name
   * determines the member, as the parsers show.
   */
  lemma EnumNamesDistinct()
    ensures forall x: UserRole, y: UserRole :: x.Name() == y.Name() ==> x == y
    ensures forall x: Sex, y: Sex :: x.Name() == y.Name() ==> x == y
    ensures forall x: GoalType, y: GoalType :: x.Name() == y.Name() ==> x == y
    ensures forall x: Priority, y: Priority :: x.Name() == y.Name() ==> x == y
    ensures forall x: GoalStatus, y: GoalStatus :: x.Name() == y.Name() ==> x == y
    ensures forall x: ProgramStatus, y: ProgramStatus :: x.Name() == y.Name() ==> x == y
    ensures forall x: SessionType, y: SessionType :: x.Name() == y.Name() ==> x == y
    ensures forall x: SessionStatus, y: SessionStatus :: x.Name() == y.Name() ==> x == y
    ensures forall x: ExerciseCategory, y: ExerciseCategory :: x.Name() == y.Name() ==> x == y
  {
    forall x: UserRole, y: UserRole | x.Name() == y.Name() ensures x == y {
      assert ParseUserRole(x.Name()) == Some(x);
    }
    forall x: Sex, y: Sex | x.Name() == y.Name() ensures x == y {
      assert ParseSex(x.Name()) == Some(x);
    }
    forall x: GoalType, y: GoalType | x.Name() == y.Name() ensures x == y {
      assert ParseGoalType(x.Name()) == Some(x);
    }
    forall x: Priority, y: Priority | x.Name() == y.Name() ensures x == y {
      assert ParsePriority(x.Name()) == Some(x);
    }
    forall x: GoalStatus, y: GoalStatus | x.Name() == y.Name() ensures x == y {
      assert ParseGoalStatus(x.Name()) == Some(x);
    }
    forall x: ProgramStatus, y: ProgramStatus | x.Name() == y.Name() ensures x == y {
      assert ParseProgramStatus(x.Name()) == Some(x);
    }
    forall x: SessionType, y: SessionType | x.Name() == y.Name() ensures x == y {
      assert ParseSessionType(x.Name()) == Some(x);
    }
    forall x: SessionStatus, y: SessionStatus | x.Name() == y.Name() ensures x == y {
      assert ParseSessionStatus(x.Name()) == Some(x);
    }
    forall x: ExerciseCategory, y: ExerciseCategory | x.Name() == y.Name() ensures x == y {
      assert ParseExerciseCategory(x.Name()) == Some(x);
    }
  }
}
