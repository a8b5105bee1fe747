/**
 * The coach dashboard: the four collections it loads together, and the
 * metrics and previews it derives from them.
 */
module Dashboard {
  import opened Wrappers
  import Seqs
  import Api

  const ActiveStatus: string := "active"
  const ScheduledStatus: string := "scheduled"
  const DoneStatus: string := "done"
  const LoadFailed: string := "Failed to load dashboard data"

  // ---- Metrics ----

  /** `activeGoals`: the goals whose status is active, in their order. */
  function ActiveGoals(goals: seq<Api.Goal>): (r: seq<Api.Goal>)
    ensures forall g :: g in r <==> g in goals && g.status == ActiveStatus
    ensures Seqs.IsSubseq(r, goals)
  {
    var p := (g: Api.Goal) => g.status == ActiveStatus;
    assert Seqs.IsSubseq(Seqs.Filter(goals, p), goals) by { Seqs.FilterIsSubseq(goals, p); }
    Seqs.Filter(goals, p)
  }

  /** `upcomingSessions`: scheduled sessions that start strictly after `now`. */
  function UpcomingSessions(sessions: seq<Api.Session>, now: int): (r: seq<Api.Session>)
    ensures forall s :: s in r <==> s in sessions && s.start > now && s.status == ScheduledStatus
    ensures Seqs.IsSubseq(r, sessions)
  {
    var p := (s: Api.Session) => s.start > now && s.status == ScheduledStatus;
    assert Seqs.IsSubseq(Seqs.Filter(sessions, p), sessions) by { Seqs.FilterIsSubseq(sessions, p); }
    Seqs.Filter(sessions, p)
  }

  predicate IsDone(s: Api.Session) {
    s.status == DoneStatus
  }

  /** `completedSessions`: the done sessions, in their order. */
  function CompletedSessions(sessions: seq<Api.Session>): (r: seq<Api.Session>)
    ensures forall s :: s in r <==> s in sessions && IsDone(s)
    ensures |r| <= |sessions|
  {
    Seqs.Filter(sessions, IsDone)
  }

  /**
   * A percentage rounded to the nearest integer, halves upwards: the
   * integer `r` with `r - 1/2 <= 100 * done / total < r + 1/2`.
   */
  function Percent(done: nat, total: nat): (r: int)
    requires done <= total
    ensures total == 0 ==> r == 0
    ensures total > 0 ==> 2 * total * r <= 200 * done + total < 2 * total * r + 2 * total
    ensures 0 <= r <= 100
  {
    if total == 0 then 0
    else
      var q := (200 * done + total) / (2 * total);
      assert 0 <= q <= 100 by { PercentBounds(done, total, q); }
      q
  }

  lemma PercentBounds(done: nat, total: nat, q: int)
    requires 0 < total && done <= total && q == (200 * done + total) / (2 * total)
    ensures 0 <= q <= 100
  {
    var x := 200 * done + total;
    var y := 2 * total;
    assert y * q <= x < y * q + y;
    assert y * q < y * 101 by { assert 200 * done <= 200 * total; }
    MulStrict(y, q, 101);
    MulStrict(y, -1, q);
  }

  /** Cancelling a positive factor keeps a strict order. */
  lemma MulStrict(y: int, a: int, b: int)
    requires y > 0 && y * a < y * b
    ensures a < b
  {
    assert y * (b - a) == y * b - y * a;
  }

  /** Every session done gives 100. */
  lemma PercentAll(n: nat)
    requires n > 0
    ensures Percent(n, n) == 100
  {
    var r := Percent(n, n);
    assert 2 * n * 100 < 2 * n * (r + 1);
    MulStrict(2 * n, 100, r + 1);
  }

  /** No session done gives 0. */
  lemma PercentNone(n: nat)
    requires n > 0
    ensures Percent(0, n) == 0
  {
    var r := Percent(0, n);
    assert 2 * n * r < 2 * n * 1;
    MulStrict(2 * n, r, 1);
  }

  /** `completionRate`: the rounded share of done sessions, 0 without sessions. */
  function CompletionRate(sessions: seq<Api.Session>): (r: int)
    ensures 0 <= r <= 100
    ensures sessions == [] ==> r == 0
    ensures sessions != [] ==>
      (2 * |sessions| * r <= 200 * |CompletedSessions(sessions)| + |sessions|
       < 2 * |sessions| * r + 2 * |sessions|)
  {
    Percent(|CompletedSessions(sessions)|, |sessions|)
  }

  /** The rate is 100 when there are sessions and all are done, and 0 when none is done. */
  lemma CompletionRateExtremes(sessions: seq<Api.Session>)
    ensures sessions != [] && (forall i :: 0 <= i < |sessions| ==> IsDone(sessions[i])) ==>
      CompletionRate(sessions) == 100
    ensures (forall i :: 0 <= i < |sessions| ==> !IsDone(sessions[i])) ==> CompletionRate(sessions) == 0
  {
    if forall i :: 0 <= i < |sessions| ==> IsDone(sessions[i]) {
      Seqs.FilterKeepsAll(sessions, IsDone);
      if |sessions| > 0 { PercentAll(|sessions|); }
    }
    if forall i :: 0 <= i < |sessions| ==> !IsDone(sessions[i]) {
      Seqs.FilterKeepsNone(sessions, IsDone);
      if |sessions| > 0 { PercentNone(|sessions|); }
    }
  }

  function StartOf(s: Api.Session): int {
    s.start
  }

  /** `recentSessions`: the done sessions, latest start first, at most five. */
  function RecentSessions(sessions: seq<Api.Session>): (r: seq<Api.Session>)
    ensures |r| == if |CompletedSessions(sessions)| < 5 then |CompletedSessions(sessions)| else 5
    ensures forall i :: 0 <= i < |r| ==> r[i] in sessions && IsDone(r[i])
    ensures Seqs.SortedDesc(r, StartOf)
    ensures multiset(r) <= multiset(CompletedSessions(sessions))
  {
    var sorted := Seqs.SortDesc(CompletedSessions(sessions), StartOf);
    var r := Seqs.Take(sorted, 5);
    assert forall i :: 0 <= i < |r| ==> r[i] in multiset(sorted);
    Seqs.TakeSubMultiset(sorted, 5);
    r
  }

  /** No done session left out of `recentSessions` starts later than one shown. */
  lemma RecentSessionsAreLatest(sessions: seq<Api.Session>, x: Api.Session, i: nat)
    requires x in sessions && IsDone(x)
    requires i < |RecentSessions(sessions)| && x.start > RecentSessions(sessions)[i].start
    ensures x in RecentSessions(sessions)
  {
    var sorted := Seqs.SortDesc(CompletedSessions(sessions), StartOf);
    var r := RecentSessions(sessions);
    assert r == sorted[..|r|];
    assert x in multiset(sorted) by { assert x in CompletedSessions(sessions); }
    var k :| 0 <= k < |sorted| && sorted[k] == x;
    LaterComesFirst(sorted, StartOf, i, k);
    assert r[k] == x;
  }

  /** In a descending sequence an element with a larger key sits earlier. */
  lemma LaterComesFirst<T>(r: seq<T>, key: T -> int, i: nat, k: nat)
    requires Seqs.SortedDesc(r, key) && i < |r| && k < |r| && key(r[k]) > key(r[i])
    ensures k < i
  {
  }

  // ---- Athlete cards ----

  /** The athletes that get a card: the first four. */
  function CardAthletes(athletes: seq<Api.Athlete>): (r: seq<Api.Athlete>)
    ensures |r| <= 4 && |r| <= |athletes|
    ensures r == athletes[..|r|]
    ensures |athletes| >= 4 ==> |r| == 4
  {
    Seqs.Take(athletes, 4)
  }

  /** A card's goals: the active goals of that athlete. */
  function CardGoals(goals: seq<Api.Goal>, athleteId: string): (r: seq<Api.Goal>)
    ensures forall g :: g in r <==> g in goals && g.status == ActiveStatus && g.athleteId == athleteId
  {
    Seqs.Filter(ActiveGoals(goals), (g: Api.Goal) => g.athleteId == athleteId)
  }

  /** A capped list: the first two entries and the "+n" count of the others (0 when none is hidden). */
  function Preview<T>(items: seq<T>): (r: (seq<T>, nat))
    ensures |r.0| == if |items| < 2 then |items| else 2
    ensures r.0 == items[..|r.0|]
    ensures |r.0| + r.1 == |items|
    ensures r.1 > 0 <==> |items| > 2
  {
    (Seqs.Take(items, 2), if |items| > 2 then |items| - 2 else 0)
  }

  // ---- State ----

  /** All four fetches together: every value, or the first failure among them. */
  function AllFour<A, B, C, D, E>(a: Result<A, E>, b: Result<B, E>, c: Result<C, E>, d: Result<D, E>)
    : (r: Result<(A, B, C, D), E>)
    ensures r.Ok? <==> a.Ok? && b.Ok? && c.Ok? && d.Ok?
    ensures r.Ok? ==> r.value == (a.value, b.value, c.value, d.value)
  {
    match a
    case Err(e) => Err(e)
    case Ok(x) =>
      match b
      case Err(e) => Err(e)
      case Ok(y) =>
        match c
        case Err(e) => Err(e)
        case Ok(z) =>
          match d
          case Err(e) => Err(e)
          case Ok(w) => Ok((x, y, z, w))
  }

  /** The dashboard's state cells; the assessments array is the one `sort` reorders in place. */
  class DashboardView {
    var athletes: seq<Api.Athlete>
    var goals: seq<Api.Goal>
    var sessions: seq<Api.Session>
    var assessments: array<Api.PhysicalAssessment>
    var isLoading: bool

    constructor()
      ensures athletes == [] && goals == [] && sessions == [] && assessments.Length == 0
      ensures isLoading
    {
      athletes := [];
      goals := [];
      sessions := [];
      assessments := new Api.PhysicalAssessment[0];
      isLoading := true;
    }

    /**
     * `loadDashboardData`: the four collections change only when all four
     * fetches succeed; a failure raises the toast. Loading ends either way.
     */
    method LoadDashboardData(
      athletesResult: Result<seq<Api.Athlete>, Api.Failure>,
      goalsResult: Result<seq<Api.Goal>, Api.Failure>,
      sessionsResult: Result<seq<Api.Session>, Api.Failure>,
      assessmentsResult: Result<seq<Api.PhysicalAssessment>, Api.Failure>)
      returns (toast: Option<string>)
      modifies this
      ensures !isLoading
      ensures toast.None? <==> AllFour(athletesResult, goalsResult, sessionsResult, assessmentsResult).Ok?
      ensures toast.Some? ==> toast.value == LoadFailed
      ensures toast.None? ==>
        athletes == athletesResult.value && goals == goalsResult.value && sessions == sessionsResult.value
        && fresh(assessments) && assessments[..] == assessmentsResult.value
      ensures toast.Some? ==>
        athletes == old(athletes) && goals == old(goals) && sessions == old(sessions)
        && assessments == old(assessments)
    {
      isLoading := true;
      var all := AllFour(athletesResult, goalsResult, sessionsResult, assessmentsResult);
      match all {
        case Ok((a, g, s, d)) =>
          athletes := a;
          goals := g;
          sessions := s;
          assessments := new Api.PhysicalAssessment[|d|](i requires 0 <= i < |d| => d[i]);
          toast := None;
        case Err(_) =>
          toast := Some(LoadFailed);
      }
      isLoading := false;
    }

    /**
     * `latestAssessment`: sorts the assessments array in place, latest date
     * first, and returns its first element, or nothing when it is empty.
     */
    method LatestAssessment() returns (r: Option<Api.PhysicalAssessment>)
      modifies assessments
      ensures r.None? <==> assessments.Length == 0
      ensures r.Some? ==> r.value in old(assessments[..])
      ensures r.Some? ==> forall i :: 0 <= i < assessments.Length ==> old(assessments[i]).date <= r.value.date
      ensures multiset(assessments[..]) == multiset(old(assessments[..]))
      ensures Seqs.SortedDesc(assessments[..], (x: Api.PhysicalAssessment) => x.date)
    {
      if assessments.Length == 0 {
        return None;
      }
      ghost var perm := Seqs.SortInPlace(assessments, (x: Api.PhysicalAssessment) => -x.date);
      r := Some(assessments[0]);
      assert assessments[0] in multiset(old(assessments[..]));
      forall i | 0 <= i < assessments.Length
        ensures old(assessments[i]).date <= r.value.date
      {
        assert old(assessments[i]) in multiset(assessments[..]) by {
          assert old(assessments[i]) == old(assessments[..])[i];
        }
        var k :| 0 <= k < assessments.Length && assessments[k] == old(assessments[i]);
        assert -assessments[0].date <= -assessments[k].date by {
          if k > 0 {
            assert assessments[..][0] == assessments[0] && assessments[..][k] == assessments[k];
          }
        }
      }
    }
  }
}
