/**
 * The two analytics endpoints of the backend: the weekly overview of an
 * athlete (session count, mean intensity, histogram of session types) and
 * the assessment series drawn by the radar and line charts.
 */
module Analytics {
  import opened Wrappers
  import opened Values
  import Seqs
  import Store
  import Models
  import Server
  import ServerAuth

  const WeekSeconds: int := 7 * 24 * 60 * 60

  // ---- Overview: which sessions count ----

  /** The sessions of the athlete that are done and started at or after `weekAgo`. */
  function OverviewQuery(athleteId: string, weekAgo: int): (q: Store.Query)
    ensures q.Keys == {"athlete_id", "start", "status"}
  {
    map["athlete_id" := Store.Field(Store.Equals(Str(athleteId))),
        "start" := Store.Field(Store.AtLeast(weekAgo)),
        "status" := Store.Field(Store.Equals(Str("done")))]
  }

  lemma OverviewQueryMeaning(athleteId: string, weekAgo: int, d: Doc)
    ensures Store.Matches(d, OverviewQuery(athleteId, weekAgo)) <==>
      Get(d, "athlete_id") == Str(athleteId) && Get(d, "status") == Str("done")
      && Get(d, "start").Time? && weekAgo <= Get(d, "start").t
  {
    var q := OverviewQuery(athleteId, weekAgo);
    if Get(d, "athlete_id") == Str(athleteId) && Get(d, "status") == Str("done")
       && Get(d, "start").Time? && weekAgo <= Get(d, "start").t {
      forall k | k in q ensures Store.ClauseHolds(d, k, q[k]) { }
    } else {
      assert !Store.ClauseHolds(d, "athlete_id", q["athlete_id"])
          || !Store.ClauseHolds(d, "status", q["status"])
          || !Store.ClauseHolds(d, "start", q["start"]);
    }
  }

  /** The sessions the overview is computed from. */
  function RecentSessions(db: Server.Db, athleteId: string, now: int): seq<Doc> {
    Store.FindDocuments(Server.Coll(db, "sessions"), OverviewQuery(athleteId, now - WeekSeconds))
  }

  // ---- Overview: sessions by type ----

  /** `session.get('type', 'other')`: a stored `null` stays `null`. */
  function TypeKey(d: Doc): Value {
    GetOr(d, "type", Str("other"))
  }

  function HasType(t: Value): Doc -> bool {
    d => TypeKey(d) == t
  }

  function TypeKeys(s: seq<Doc>): (r: seq<Value>)
    ensures |r| == |s| && forall i :: 0 <= i < |s| ==> r[i] == TypeKey(s[i])
  {
    seq(|s|, i requires 0 <= i < |s| => TypeKey(s[i]))
  }

  /** How many of `s` have type `t`: the reference for the histogram. */
  function CountOf(s: seq<Doc>, t: Value): nat {
    |Seqs.Filter(s, HasType(t))|
  }

  lemma CountOfSnoc(s: seq<Doc>, d: Doc, t: Value)
    ensures CountOf(s + [d], t) == CountOf(s, t) + (if TypeKey(d) == t then 1 else 0)
  {
    Seqs.FilterAppend(s, [d], HasType(t));
    assert Seqs.Filter([d], HasType(t)) == (if TypeKey(d) == t then [d] else []) by {
      assert [d][1..] == [];
    }
  }

  lemma CountOfCons(d: Doc, s: seq<Doc>, t: Value)
    ensures CountOf([d] + s, t) == CountOf(s, t) + (if TypeKey(d) == t then 1 else 0)
  {
    assert ([d] + s)[1..] == s;
  }

  /**
   * The loop of `get_athlete_overview` that fills `sessions_count_by_type`:
   * the keys are the types that occur, each mapped to how many sessions
   * have it.
   */
  method CountSessionsByType(sessions: seq<Doc>) returns (counts: map<Value, int>)
    ensures forall t :: t in counts <==> t in TypeKeys(sessions)
    ensures forall t :: t in counts ==> counts[t] == CountOf(sessions, t)
  {
    counts := map[];
    var i := 0;
    while i < |sessions|
      invariant 0 <= i <= |sessions|
      invariant forall t :: t in counts <==> t in TypeKeys(sessions[..i])
      invariant forall t :: t in counts ==> counts[t] == CountOf(sessions[..i], t)
    {
      var t := TypeKey(sessions[i]);
      PrefixStep(sessions, i);
      if t !in counts {
        AbsentTypeHasNoCount(sessions[..i], t);
      }
      counts := counts[t := (if t in counts then counts[t] else 0) + 1];
      i := i + 1;
    }
    assert sessions[..i] == sessions;
  }

  /** Extending the prefix by one session adds its type and raises its count by one. */
  lemma PrefixStep(s: seq<Doc>, i: nat)
    requires i < |s|
    ensures TypeKeys(s[..i + 1]) == TypeKeys(s[..i]) + [TypeKey(s[i])]
    ensures forall u :: CountOf(s[..i + 1], u) == CountOf(s[..i], u) + (if TypeKey(s[i]) == u then 1 else 0)
  {
    assert s[..i + 1] == s[..i] + [s[i]];
    forall u ensures CountOf(s[..i + 1], u) == CountOf(s[..i], u) + (if TypeKey(s[i]) == u then 1 else 0) {
      CountOfSnoc(s[..i], s[i], u);
    }
  }

  lemma AbsentTypeHasNoCount(s: seq<Doc>, t: Value)
    requires t !in TypeKeys(s)
    ensures CountOf(s, t) == 0
  {
    forall i | 0 <= i < |s| ensures !HasType(t)(s[i]) {
      assert TypeKeys(s)[i] == TypeKey(s[i]);
    }
    Seqs.FilterKeepsNone(s, HasType(t));
  }

  /** How often `x` occurs in `keys`. */
  function Occurrences(keys: seq<Value>, x: Value): nat {
    if keys == [] then 0 else (if keys[0] == x then 1 else 0) + Occurrences(keys[1..], x)
  }

  /** The sum of the counts of `keys`. */
  function SumCounts(s: seq<Doc>, keys: seq<Value>): nat {
    if keys == [] then 0 else CountOf(s, keys[0]) + SumCounts(s, keys[1..])
  }

  lemma {:induction false} OccursOnce(keys: seq<Value>, x: Value)
    requires Seqs.NoDuplicates(keys)
    ensures Occurrences(keys, x) == (if x in keys then 1 else 0)
  {
    if keys != [] {
      assert Seqs.NoDuplicates(keys[1..]);
      OccursOnce(keys[1..], x);
      assert x in keys <==> keys[0] == x || x in keys[1..];
      if keys[0] == x {
        assert x !in keys[1..];
      }
    }
  }

  lemma {:induction false} SumCountsCons(d: Doc, s: seq<Doc>, keys: seq<Value>)
    ensures SumCounts([d] + s, keys) == Occurrences(keys, TypeKey(d)) + SumCounts(s, keys)
  {
    if keys != [] {
      CountOfCons(d, s, keys[0]);
      SumCountsCons(d, s, keys[1..]);
    }
  }

  lemma {:induction false} SumCountsEmpty(keys: seq<Value>)
    ensures SumCounts([], keys) == 0
  {
    if keys != [] {
      SumCountsEmpty(keys[1..]);
    }
  }

  /** Summing the counts over any duplicate-free list holding every type gives the number of sessions. */
  lemma {:induction false} SumCountsCovers(s: seq<Doc>, keys: seq<Value>)
    requires Seqs.NoDuplicates(keys)
    requires forall i :: 0 <= i < |s| ==> TypeKey(s[i]) in keys
    ensures SumCounts(s, keys) == |s|
  {
    if s == [] {
      SumCountsEmpty(keys);
    } else {
      assert s == [s[0]] + s[1..];
      SumCountsCons(s[0], s[1..], keys);
      OccursOnce(keys, TypeKey(s[0]));
      SumCountsCovers(s[1..], keys);
    }
  }

  /** The histogram accounts for every session: its counts add up to `weekly_volume`. */
  lemma HistogramAddsUp(s: seq<Doc>)
    ensures SumCounts(s, Seqs.Distinct(TypeKeys(s))) == |s|
  {
    SumCountsCovers(s, Seqs.Distinct(TypeKeys(s)));
  }

  // ---- Overview: mean intensity ----

  /** A value as Python's `sum` adds it: ints, floats and bools; anything else raises. */
  function NumberOf(v: Value): (r: Option<real>)
    ensures r.Some? <==> v.Int? || v.Real? || v.Bool?
    ensures v.Int? ==> r == Some(v.i as real)
  {
    match v
    case Int(i) => Some(i as real)
    case Real(x) => Some(x)
    case Bool(b) => Some(if b then 1.0 else 0.0)
    case _ => None
  }

  /** `sum(f(x) for x in s)`, or `None` when one term cannot be added. */
  function Total(s: seq<Doc>, f: Doc -> Option<real>): (r: Option<real>)
    ensures r.Some? <==> forall i :: 0 <= i < |s| ==> f(s[i]).Some?
  {
    if s == [] then Some(0.0)
    else
      var head := f(s[0]);
      var rest := Total(s[1..], f);
      assert forall i :: 1 <= i < |s| ==> s[i] == s[1..][i - 1];
      if head.Some? && rest.Some? then Some(head.value + rest.value) else None
  }

  /** `session.get('intensity', 0)` as written: a stored `null` is returned, not the default. */
  function IntensityAsWritten(d: Doc): Option<real> {
    NumberOf(GetOr(d, "intensity", Int(0)))
  }

  /** A session stored without an intensity makes the overview's sum raise. */
  lemma SessionWithoutIntensityBreaksSum(c: Models.SessionCreate, m: Models.Meta)
    requires c.intensity.None?
    ensures Total([Models.SessionDoc(Models.NewSession(c, m))], d => IntensityAsWritten(d)).None?
    ensures Total([Models.SessionDoc(Models.NewSession(c, m))], d => Intensity(d)) == Some(0.0)
  {
    Models.NewSessionIsDraft(c, m);
  }

  /** `session.get('intensity') or 0`: a missing or `null` intensity counts as 0. */
  function Intensity(d: Doc): (r: Option<real>)
    ensures Get(d, "intensity") == Null ==> r == Some(0.0)
    ensures Get(d, "intensity").Int? ==> r == Some(Get(d, "intensity").i as real)
  {
    if Truthy(Get(d, "intensity")) then NumberOf(Get(d, "intensity")) else Some(0.0)
  }

  /** Sessions whose intensity is absent, `null` or on the 1-10 scale. */
  predicate IntensitiesOnScale(s: seq<Doc>) {
    forall i :: 0 <= i < |s| ==>
      Get(s[i], "intensity") == Null || (Get(s[i], "intensity").Int? && 1 <= Get(s[i], "intensity").i <= 10)
  }

  /** With intensities on the scale the corrected sum exists and lies between 0 and 10 per session. */
  lemma {:induction false} IntensityTotalBounded(s: seq<Doc>)
    requires IntensitiesOnScale(s)
    ensures Total(s, d => Intensity(d)).Some?
    ensures 0.0 <= Total(s, d => Intensity(d)).value <= 10.0 * (|s| as real)
  {
    if s != [] {
      assert IntensitiesOnScale(s[1..]) by {
        forall i | 0 <= i < |s[1..]| ensures s[1..][i] == s[i + 1] { }
      }
      IntensityTotalBounded(s[1..]);
    }
  }

  /** The mean intensity: 0 without sessions. Rounding to one decimal is not modelled. */
  function Mean(total: real, n: nat): real {
    if n == 0 then 0.0 else total / (n as real)
  }

  lemma MeanOnScale(s: seq<Doc>)
    requires IntensitiesOnScale(s)
    ensures 0.0 <= Mean(Total(s, d => Intensity(d)).value, |s|) <= 10.0
  {
    IntensityTotalBounded(s);
    MeanBounded(Total(s, d => Intensity(d)).value, |s|);
  }

  lemma MeanBounded(total: real, n: nat)
    requires 0.0 <= total <= 10.0 * (n as real)
    ensures 0.0 <= Mean(total, n) <= 10.0
  {
    if n > 0 {
      var q := total / (n as real);
      assert q * (n as real) == total;
      if q > 10.0 {
        assert q * (n as real) > 10.0 * (n as real);
      }
    }
  }

  /**
   * `get_athlete_overview`: the done sessions of the past seven days,
   * counted, averaged and grouped by type; `next_events` is always empty.
   */
  method GetAthleteOverview(db: Server.Db, athleteId: string, now: int)
    returns (r: Result<Models.AthleteOverview, ServerAuth.HttpError>)
    ensures var recent := RecentSessions(db, athleteId, now);
      && (r.Err? <==> Total(recent, d => Intensity(d)).None?)
      && (r.Err? ==> r.error == Server.InternalError)
      && (r.Ok? ==>
        r.value.weeklyVolume == |recent|
        && r.value.intensityAvg == Mean(Total(recent, d => Intensity(d)).value, |recent|)
        && (forall t :: t in r.value.sessionsCountByType <==> t in TypeKeys(recent))
        && (forall t :: t in r.value.sessionsCountByType ==> r.value.sessionsCountByType[t] == CountOf(recent, t))
        && r.value.nextEvents == [])
  {
    var recent := RecentSessions(db, athleteId, now);
    var total := Total(recent, d => Intensity(d));
    if total.None? {
      return Err(Server.InternalError);
    }
    var counts := CountSessionsByType(recent);
    r := Ok(Models.AthleteOverview(|recent|, Mean(total.value, |recent|), counts, []));
  }

  // ---- Assessment series ----

  /** The sort key of an assessment: its date. */
  function DateKey(d: Doc): int {
    if Get(d, "date").Time? then Get(d, "date").t else 0
  }

  function AssessmentsOf(db: Server.Db, athleteId: string): seq<Doc> {
    Store.FindDocuments(Server.Coll(db, "physical_assessments"),
                        map["athlete_id" := Store.Field(Store.Equals(Str(athleteId)))])
  }

  /** The series of `ordered`: one date per assessment, and one column per score field. */
  function SeriesOf(ordered: seq<Doc>): (r: Models.AssessmentSeries)
    ensures |r.dates| == |ordered| && |r.scores| == |Models.ScoreFields|
    ensures forall i :: 0 <= i < |ordered| ==> r.dates[i] == DateKey(ordered[i])
    ensures forall j :: 0 <= j < |r.scores| ==> |r.scores[j]| == |ordered|
    ensures forall j, i :: 0 <= j < |r.scores| && 0 <= i < |ordered| ==>
      r.scores[j][i] == Get(ordered[i], Models.ScoreFields[j])
  {
    Models.AssessmentSeries(
      seq(|ordered|, i requires 0 <= i < |ordered| => DateKey(ordered[i])),
      seq(|Models.ScoreFields|, j requires 0 <= j < |Models.ScoreFields| =>
        seq(|ordered|, i requires 0 <= i < |ordered| => Get(ordered[i], Models.ScoreFields[j]))))
  }

  /**
   * `get_athlete_assessments`: the athlete's assessments sorted by date
   * (stably: assessments of the same date keep their stored order) and
   * turned into columns; a missing or non-date `date` makes the sort or the
   * date formatting raise, so the request fails.
   */
  method GetAthleteAssessments(db: Server.Db, athleteId: string)
    returns (r: Result<Models.AssessmentSeries, ServerAuth.HttpError>)
    ensures var found := AssessmentsOf(db, athleteId);
      && (r.Err? <==> exists i :: 0 <= i < |found| && !Get(found[i], "date").Time?)
      && (r.Err? ==> r.error == Server.InternalError)
      && (r.Ok? ==> exists ordered, perm :: (r.value == SeriesOf(ordered)
            && multiset(ordered) == multiset(found) && Seqs.SortedAsc(ordered, DateKey)
            && Seqs.StableRearrangement(ordered, found, DateKey, perm)))
  {
    var found := AssessmentsOf(db, athleteId);
    if exists i :: 0 <= i < |found| && !Get(found[i], "date").Time? {
      return Err(Server.InternalError);
    }
    var a := new Doc[|found|](i requires 0 <= i < |found| => found[i]);
    assert a[..] == found;
    ghost var perm := Seqs.SortInPlace(a, DateKey);
    r := Ok(SeriesOf(a[..]));
  }
}
