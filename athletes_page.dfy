/**
 * The athlete list page: the three collections it loads together, the
 * name and sector filter, each card's goals, records and age, the sector
 * choices, and which blocks render.
 */
module AthletesPage {
  import opened Wrappers
  import Seqs
  import Text
  import Api

  const ActiveStatus: string := "active"
  const LoadFailed: string := "Failed to load athletes data"

  // ---- Filters ----

  /** The search: empty, or a case-insensitive part of the first or the last name. */
  predicate MatchesSearch(a: Api.Athlete, searchTerm: string) {
    searchTerm == ""
    || Text.IncludesIgnoringCase(a.firstName, searchTerm)
    || Text.IncludesIgnoringCase(a.lastName, searchTerm)
  }

  /** The sector filter: empty, or exactly the athlete's sector. */
  predicate MatchesSector(a: Api.Athlete, selectedSector: string) {
    selectedSector == "" || a.sector == Some(selectedSector)
  }

  /** `filteredAthletes`: the athletes passing both filters, in their order. */
  function FilteredAthletes(athletes: seq<Api.Athlete>, searchTerm: string, selectedSector: string)
    : (r: seq<Api.Athlete>)
    ensures forall a :: a in r <==>
      a in athletes && MatchesSearch(a, searchTerm) && MatchesSector(a, selectedSector)
    ensures Seqs.IsSubseq(r, athletes)
  {
    var p := (a: Api.Athlete) => MatchesSearch(a, searchTerm) && MatchesSector(a, selectedSector);
    assert Seqs.IsSubseq(Seqs.Filter(athletes, p), athletes) by { Seqs.FilterIsSubseq(athletes, p); }
    Seqs.Filter(athletes, p)
  }

  /** With neither filter set every athlete is listed, in order. */
  lemma NoFiltersListAll(athletes: seq<Api.Athlete>)
    ensures FilteredAthletes(athletes, "", "") == athletes
  {
    var p := (a: Api.Athlete) => MatchesSearch(a, "") && MatchesSector(a, "");
    Seqs.FilterKeepsAll(athletes, p);
  }

  /** A search that is a part of an athlete's name keeps that athlete, whatever its case. */
  lemma NameFindsAthlete(athletes: seq<Api.Athlete>, a: Api.Athlete)
    requires a in athletes
    ensures a in FilteredAthletes(athletes, a.firstName, "")
    ensures a in FilteredAthletes(athletes, Text.Lower(a.lastName), "")
  {
    Text.IncludesIgnoringCaseSelf(a.firstName);
    Text.IncludesIgnoringCaseLower(a.lastName);
  }

  /** `getAthleteGoals`: the athlete's active goals, in their order. */
  function AthleteGoals(goals: seq<Api.Goal>, athleteId: string): (r: seq<Api.Goal>)
    ensures forall g :: g in r <==> g in goals && g.athleteId == athleteId && g.status == ActiveStatus
    ensures Seqs.IsSubseq(r, goals)
  {
    var p := (g: Api.Goal) => g.athleteId == athleteId && g.status == ActiveStatus;
    assert Seqs.IsSubseq(Seqs.Filter(goals, p), goals) by { Seqs.FilterIsSubseq(goals, p); }
    Seqs.Filter(goals, p)
  }

  /** `getAthleteRecords`: the athlete's records, in their order. */
  function AthleteRecords(records: seq<Api.PersonalRecord>, athleteId: string): (r: seq<Api.PersonalRecord>)
    ensures forall x :: x in r <==> x in records && x.athleteId == athleteId
    ensures Seqs.IsSubseq(r, records)
  {
    var p := (x: Api.PersonalRecord) => x.athleteId == athleteId;
    assert Seqs.IsSubseq(Seqs.Filter(records, p), records) by { Seqs.FilterIsSubseq(records, p); }
    Seqs.Filter(records, p)
  }

  /** The "Recent PB" line: the athlete's first record in list order, if any. */
  function RecentPb(records: seq<Api.PersonalRecord>, athleteId: string): (r: Option<Api.PersonalRecord>)
    ensures r.None? <==> forall i :: 0 <= i < |records| ==> records[i].athleteId != athleteId
    ensures r.Some? ==> exists k :: (0 <= k < |records| && records[k] == r.value && r.value.athleteId == athleteId
                                     && forall j :: 0 <= j < k ==> records[j].athleteId != athleteId)
  {
    if records == [] then None
    else if records[0].athleteId == athleteId then Some(records[0])
    else
      var r := RecentPb(records[1..], athleteId);
      assert forall i :: 1 <= i < |records| ==> records[i] == records[1..][i - 1];
      r
  }

  /** `RecentPb` is the head of `AthleteRecords`. */
  lemma {:induction false} RecentPbIsFirstRecord(records: seq<Api.PersonalRecord>, athleteId: string)
    ensures RecentPb(records, athleteId).None? <==> AthleteRecords(records, athleteId) == []
    ensures RecentPb(records, athleteId).Some? ==>
      RecentPb(records, athleteId).value == AthleteRecords(records, athleteId)[0]
  {
    if records != [] {
      RecentPbIsFirstRecord(records[1..], athleteId);
    }
  }

  // ---- Sectors ----

  /** The sectors that are set and non-empty, one entry per athlete, in order. */
  function PresentSectors(athletes: seq<Api.Athlete>): (r: seq<string>)
    ensures |r| <= |athletes|
    ensures forall s :: s in r <==> s != "" && exists i :: 0 <= i < |athletes| && athletes[i].sector == Some(s)
  {
    if athletes == [] then []
    else
      var rest := PresentSectors(athletes[1..]);
      assert forall i :: 1 <= i < |athletes| ==> athletes[i] == athletes[1..][i - 1];
      match athletes[0].sector
      case Some(s) => if s != "" then [s] + rest else rest
      case None => rest
  }

  /** `uniqueSectors`: each set, non-empty sector once, in the order of first appearance. */
  function UniqueSectors(athletes: seq<Api.Athlete>): (r: seq<string>)
    ensures Seqs.NoDuplicates(r)
    ensures forall s :: s in r <==> s != "" && exists i :: 0 <= i < |athletes| && athletes[i].sector == Some(s)
    ensures forall i :: 0 <= i < |r| ==> r[i] in PresentSectors(athletes)
    ensures forall i, j :: 0 <= i < j < |r| ==>
      Seqs.FirstIndex(PresentSectors(athletes), r[i]) < Seqs.FirstIndex(PresentSectors(athletes), r[j])
  {
    Seqs.DistinctFirstOccurrenceOrder(PresentSectors(athletes));
    Seqs.Distinct(PresentSectors(athletes))
  }

  // ---- Age ----

  /** A calendar date as the page reads it: year, month, day of month. */
  datatype CivilDate = CivilDate(year: int, month: int, day: int)

  /** `a` is on or before `b`. */
  predicate NotAfter(a: CivilDate, b: CivilDate) {
    a.year < b.year
    || (a.year == b.year && (a.month < b.month || (a.month == b.month && a.day <= b.day)))
  }

  /** The `n`-th birthday. */
  function Anniversary(birth: CivilDate, n: int): CivilDate {
    CivilDate(birth.year + n, birth.month, birth.day)
  }

  /**
   * `getAgeFromBirthDate`: nothing without a birth date; otherwise the
   * number of birthdays reached by `today`, that is the year difference,
   * one less while this year's birthday is still ahead.
   */
  function AgeFromBirthDate(birthDate: Option<string>, today: CivilDate, parse: string -> CivilDate)
    : (r: Option<int>)
    ensures r.None? <==> birthDate.None? || birthDate == Some("")
    ensures r.Some? ==> NotAfter(Anniversary(parse(birthDate.value), r.value), today)
    ensures r.Some? ==> !NotAfter(Anniversary(parse(birthDate.value), r.value + 1), today)
  {
    match birthDate
    case None => None
    case Some(text) =>
      if text == "" then None
      else
        var birth := parse(text);
        var age := today.year - birth.year;
        var monthDiff := today.month - birth.month;
        if monthDiff < 0 || (monthDiff == 0 && today.day < birth.day) then Some(age - 1) else Some(age)
  }

  /**
   * The age line renders for a non-null, non-zero age (`{age && ...}`). For an
   * age of 0 the line itself is not shown, but React renders the falsy `0` as
   * the bare text "0" in its place.
   */
  predicate AgeShown(age: Option<int>) {
    age.Some? && age.value != 0
  }

  // ---- Rendering ----

  /** The empty state: loading is over and no athlete passes the filters. */
  predicate EmptyStateShown(isLoading: bool, filtered: seq<Api.Athlete>) {
    !isLoading && filtered == []
  }

  /** The "Add Athlete" button in the empty state: neither filter is set. */
  predicate AddButtonShown(isLoading: bool, filtered: seq<Api.Athlete>, searchTerm: string, selectedSector: string) {
    EmptyStateShown(isLoading, filtered) && searchTerm == "" && selectedSector == ""
  }

  /** With no filter set, the empty state means there are no athletes at all. */
  lemma EmptyStateWithoutFilters(athletes: seq<Api.Athlete>)
    ensures EmptyStateShown(false, FilteredAthletes(athletes, "", "")) <==> athletes == []
    ensures AddButtonShown(false, FilteredAthletes(athletes, "", ""), "", "") <==> athletes == []
  {
    NoFiltersListAll(athletes);
  }

  /** A goal counted as active on the page. */
  predicate IsActiveGoal(g: Api.Goal) {
    g.status == ActiveStatus
  }

  /** The active-goal figure counts the positions holding an active goal. */
  lemma ActiveGoalCount(goals: seq<Api.Goal>)
    ensures |Seqs.Filter(goals, IsActiveGoal)| == |set i | 0 <= i < |goals| && goals[i].status == ActiveStatus|
  {
    Seqs.FilterCount(goals, IsActiveGoal);
    assert Seqs.Positions(goals, IsActiveGoal) == set i | 0 <= i < |goals| && goals[i].status == ActiveStatus;
  }

  /** The sector figure counts the distinct set, non-empty sectors. */
  lemma SectorCount(athletes: seq<Api.Athlete>)
    ensures |UniqueSectors(athletes)| == |set a | a in athletes && a.sector.Some? && a.sector.value != "" :: a.sector.value|
  {
    var sectors := UniqueSectors(athletes);
    Seqs.NoDuplicatesCard(sectors);
    assert (set x | x in sectors)
        == (set a | a in athletes && a.sector.Some? && a.sector.value != "" :: a.sector.value);
  }

  /** The four figures under the list: athletes, active goals, sectors, records. */
  function Stats(athletes: seq<Api.Athlete>, goals: seq<Api.Goal>, records: seq<Api.PersonalRecord>)
    : (r: (nat, nat, nat, nat))
    ensures r.0 == |athletes| && r.3 == |records|
    ensures r.1 <= |goals|
    ensures r.1 == |set i | 0 <= i < |goals| && goals[i].status == ActiveStatus|
    ensures r.2 <= |athletes|
    ensures r.2 == |UniqueSectors(athletes)|
    ensures r.2 == |set a | a in athletes && a.sector.Some? && a.sector.value != "" :: a.sector.value|
  {
    ActiveGoalCount(goals);
    SectorCount(athletes);
    (|athletes|, |Seqs.Filter(goals, IsActiveGoal)|, |UniqueSectors(athletes)|, |records|)
  }

  /** The three fetches together: every value, or the first failure. */
  function AllThree<A, B, C, E>(a: Result<A, E>, b: Result<B, E>, c: Result<C, E>): (r: Result<(A, B, C), E>)
    ensures r.Ok? <==> a.Ok? && b.Ok? && c.Ok?
    ensures r.Ok? ==> r.value == (a.value, b.value, c.value)
  {
    match a
    case Err(e) => Err(e)
    case Ok(x) =>
      match b
      case Err(e) => Err(e)
      case Ok(y) =>
        match c
        case Err(e) => Err(e)
        case Ok(z) => Ok((x, y, z))
  }

  /** The page's state cells. */
  class AthletesView {
    var athletes: seq<Api.Athlete>
    var goals: seq<Api.Goal>
    var records: seq<Api.PersonalRecord>
    var isLoading: bool
    var searchTerm: string
    var selectedSector: string

    constructor()
      ensures athletes == [] && goals == [] && records == []
      ensures isLoading && searchTerm == "" && selectedSector == ""
    {
      athletes := [];
      goals := [];
      records := [];
      isLoading := true;
      searchTerm := "";
      selectedSector := "";
    }

    /**
     * `loadData`: the three collections change only when all three fetches
     * succeed; a failure raises the toast. Loading ends either way; the
     * filters are untouched.
     */
    method LoadData(
      athletesResult: Result<seq<Api.Athlete>, Api.Failure>,
      goalsResult: Result<seq<Api.Goal>, Api.Failure>,
      recordsResult: Result<seq<Api.PersonalRecord>, Api.Failure>)
      returns (toast: Option<string>)
      modifies this
      ensures !isLoading
      ensures searchTerm == old(searchTerm) && selectedSector == old(selectedSector)
      ensures toast.None? <==> AllThree(athletesResult, goalsResult, recordsResult).Ok?
      ensures toast.Some? ==> toast.value == LoadFailed
      ensures toast.None? ==>
        athletes == athletesResult.value && goals == goalsResult.value && records == recordsResult.value
      ensures toast.Some? ==> athletes == old(athletes) && goals == old(goals) && records == old(records)
    {
      isLoading := true;
      match AllThree(athletesResult, goalsResult, recordsResult) {
        case Ok((a, g, r)) =>
          athletes := a;
          goals := g;
          records := r;
          toast := None;
        case Err(_) =>
          toast := Some(LoadFailed);
      }
      isLoading := false;
    }
  }
}
