/** Which observations may feed personal wellbeing scores, and the check-in day each calendar day is read from. */
module Wellbeing {
  import opened Common
  import opened Ledger
  import opened Database
  import opened Eligibility
  import opened EligibilityTheorems

  // ---- input selection ----------------------------------------------------------------------

  datatype Environment = PRODUCTION | TEST | DEVELOPMENT

  datatype Purpose = USER_OBSERVATION | SMOKE_TEST | CONTRACT_TEST | FIXTURE | MIGRATION | BACKFILL | DEMO

  datatype SubjectScope = PERSONAL | TEST_PROFILE | SHARED_DEMO

  /** The typed tags read from a row's context and metadata; absent where the text is not one of the closed values. */
  datatype Provenance = Provenance(environment: Option<Environment>, purpose: Option<Purpose>,
                                   scope: Option<SubjectScope>)

  datatype Decision =
    | INCLUDED | EXCLUDED_TEST | EXCLUDED_INVALIDATED | EXCLUDED_WRONG_SUBJECT | EXCLUDED_WRONG_ENVIRONMENT
    | EXCLUDED_UNSUPPORTED_CONTRACT | EXCLUDED_AMBIGUOUS

  const KNOWN_TEST_PREFIXES := [
    "lifemaxxxing://daily-check-ins/smoke-E2E_SCALE_CONTRACT_V1",
    "lifemaxxxing://daily-check-ins/smoke-E2E_WELLBEING_ACTIVATION",
    "lifemaxxxing://daily-check-ins/local-E2E_WELLBEING_ACTIVATION"]

  const KNOWN_TEST_OBSERVATIONS := {"obs_ab746ef9d6c64732990a6e7fc4aaea15"}

  const WORKOUT_EVENT_TYPE := "life.workout.completed.v1"

  predicate StartsWith(s: string, prefix: string) { |prefix| <= |s| && s[..|prefix|] == prefix }

  predicate FromKnownTest(sourceIds: seq<string>) {
    exists i, j ::
      0 <= i < |sourceIds| && 0 <= j < |KNOWN_TEST_PREFIXES| && StartsWith(sourceIds[i], KNOWN_TEST_PREFIXES[j])
  }

  predicate FromDailyFlow(sourceIds: seq<string>) {
    exists i :: 0 <= i < |sourceIds| && StartsWith(sourceIds[i], SOURCE_PREFIX)
  }

  predicate IsNonProductive(p: Option<Purpose>) {
    p in {Some(SMOKE_TEST), Some(CONTRACT_TEST), Some(FIXTURE), Some(DEMO)}
  }

  predicate HasEventType(r: Row, t: string) {
    "life_event_type" in r.metadata && r.metadata["life_event_type"] == JString(t)
  }

  function Classify(r: Row, p: Provenance, exclusions: set<string>): Decision {
    if r.observationId != "" && r.observationId in exclusions then EXCLUDED_INVALIDATED
    else if r.observationId in KNOWN_TEST_OBSERVATIONS then EXCLUDED_TEST
    else if FromKnownTest(r.sourceIds) then EXCLUDED_TEST
    else if IsNonProductive(p.purpose) then EXCLUDED_TEST
    else if p.scope == Some(TEST_PROFILE) then EXCLUDED_WRONG_SUBJECT
    else if p.environment == Some(TEST) then EXCLUDED_WRONG_ENVIRONMENT
    else if p.environment == Some(DEVELOPMENT) && p.purpose != Some(USER_OBSERVATION) then EXCLUDED_WRONG_ENVIRONMENT
    else if r.subject == "workout" || HasEventType(r, WORKOUT_EVENT_TYPE) then
      if p.purpose == Some(USER_OBSERVATION) || p.purpose.None? then INCLUDED else EXCLUDED_TEST
    else if p.purpose == Some(USER_OBSERVATION) then
      if p.environment in {None, Some(PRODUCTION), Some(DEVELOPMENT)} && p.scope in {None, Some(PERSONAL)} then INCLUDED
      else EXCLUDED_WRONG_ENVIRONMENT
    else if FromDailyFlow(r.sourceIds) && p.purpose.None? && p.environment in {None, Some(PRODUCTION)} then INCLUDED
    else if p.purpose.None? && p.environment.None? then EXCLUDED_AMBIGUOUS
    else if p.purpose == Some(MIGRATION) || p.purpose == Some(BACKFILL) then EXCLUDED_UNSUPPORTED_CONTRACT
    else EXCLUDED_AMBIGUOUS
  }

  /**
   * A row feeds a score exactly when it is neither invalidated nor a test artefact by id, source, purpose,
   * profile or environment, and is a user observation of the person, or an untagged workout or daily flow row.
   */
  lemma IncludedExactly(r: Row, p: Provenance, exclusions: set<string>)
    ensures Classify(r, p, exclusions) == INCLUDED <==>
            && (r.observationId == "" || r.observationId !in exclusions) && r.observationId !in KNOWN_TEST_OBSERVATIONS
            && !FromKnownTest(r.sourceIds) && p.scope != Some(TEST_PROFILE) && p.environment != Some(TEST)
            && (|| (p.purpose == Some(USER_OBSERVATION) && (p.scope != Some(SHARED_DEMO) || IsWorkout(r)))
                || (p.purpose.None? && p.environment != Some(DEVELOPMENT)
                    && (IsWorkout(r) || FromDailyFlow(r.sourceIds))))
  {
    hide FromKnownTest, FromDailyFlow, HasEventType;
    Closed(p.environment, p.scope);
  }

  /** A known test artefact: by its id, by the start of a source id, or by its purpose. */
  predicate IsTestArtefact(r: Row, p: Provenance) {
    || r.observationId == "obs_ab746ef9d6c64732990a6e7fc4aaea15"
    || (exists i :: 0 <= i < |r.sourceIds| && NamesTest(r.sourceIds[i]))
    || p.purpose == Some(SMOKE_TEST) || p.purpose == Some(CONTRACT_TEST) || p.purpose == Some(FIXTURE)
    || p.purpose == Some(DEMO)
  }

  predicate NamesTest(id: string) {
    || StartsWith(id, "lifemaxxxing://daily-check-ins/smoke-E2E_SCALE_CONTRACT_V1")
    || StartsWith(id, "lifemaxxxing://daily-check-ins/smoke-E2E_WELLBEING_ACTIVATION")
    || StartsWith(id, "lifemaxxxing://daily-check-ins/local-E2E_WELLBEING_ACTIVATION")
  }

  lemma KnownTestsMean(r: Row, p: Provenance)
    ensures IsTestArtefact(r, p) <==>
            r.observationId in KNOWN_TEST_OBSERVATIONS || FromKnownTest(r.sourceIds) || IsNonProductive(p.purpose)
    ensures FromDailyFlow(r.sourceIds) <==>
            exists i :: 0 <= i < |r.sourceIds| && StartsWith(r.sourceIds[i], "lifemaxxxing://daily-check-ins/")
  {
    hide StartsWith;
    assert KNOWN_TEST_PREFIXES[0] == "lifemaxxxing://daily-check-ins/smoke-E2E_SCALE_CONTRACT_V1";
    assert KNOWN_TEST_PREFIXES[1] == "lifemaxxxing://daily-check-ins/smoke-E2E_WELLBEING_ACTIVATION";
    assert KNOWN_TEST_PREFIXES[2] == "lifemaxxxing://daily-check-ins/local-E2E_WELLBEING_ACTIVATION";
    if i :| 0 <= i < |r.sourceIds| && NamesTest(r.sourceIds[i]) {
      assert StartsWith(r.sourceIds[i], KNOWN_TEST_PREFIXES[0]) || StartsWith(r.sourceIds[i], KNOWN_TEST_PREFIXES[1])
             || StartsWith(r.sourceIds[i], KNOWN_TEST_PREFIXES[2]);
    }
    if i, j :| 0 <= i < |r.sourceIds| && 0 <= j < |KNOWN_TEST_PREFIXES|
               && StartsWith(r.sourceIds[i], KNOWN_TEST_PREFIXES[j]) {
      assert j == 0 || j == 1 || j == 2;
      assert NamesTest(r.sourceIds[i]);
    }
  }

  predicate Invalidated(r: Row, exclusions: set<string>) { r.observationId != "" && r.observationId in exclusions }

  /** Neither invalidated nor a test artefact, of the person, and recorded in earnest. */
  predicate InEarnest(r: Row, p: Provenance, exclusions: set<string>) {
    && !Invalidated(r, exclusions) && !IsTestArtefact(r, p) && p.scope != Some(TEST_PROFILE)
    && p.environment != Some(TEST) && (p.environment == Some(DEVELOPMENT) ==> p.purpose == Some(USER_OBSERVATION))
  }

  /** Every decision has its exact condition. */
  lemma DecisionsExactly(r: Row, p: Provenance, exclusions: set<string>)
    ensures var d, earnest := Classify(r, p, exclusions), InEarnest(r, p, exclusions);
            var workout := r.subject == "workout" || HasEventType(r, "life.workout.completed.v1");
            && (d == EXCLUDED_INVALIDATED <==> Invalidated(r, exclusions))
            && (d == EXCLUDED_TEST <==>
                || (!Invalidated(r, exclusions) && IsTestArtefact(r, p))
                || (earnest && workout && (p.purpose == Some(MIGRATION) || p.purpose == Some(BACKFILL))))
            && (d == EXCLUDED_WRONG_SUBJECT <==>
                !Invalidated(r, exclusions) && !IsTestArtefact(r, p) && p.scope == Some(TEST_PROFILE))
            && (d == EXCLUDED_WRONG_ENVIRONMENT <==>
                || (!Invalidated(r, exclusions) && !IsTestArtefact(r, p) && p.scope != Some(TEST_PROFILE) && !earnest)
                || (earnest && !workout && p.purpose == Some(USER_OBSERVATION) && p.scope == Some(SHARED_DEMO)))
            && (d == EXCLUDED_UNSUPPORTED_CONTRACT <==>
                earnest && !workout && (p.purpose == Some(MIGRATION) || p.purpose == Some(BACKFILL)))
            && (d == EXCLUDED_AMBIGUOUS <==>
                earnest && !workout && p.purpose.None? && !FromDailyFlow(r.sourceIds))
            && (d == INCLUDED <==>
                && earnest
                && (|| (workout && (p.purpose.None? || p.purpose == Some(USER_OBSERVATION)))
                    || (!workout && p.purpose == Some(USER_OBSERVATION) && p.scope != Some(SHARED_DEMO))
                    || (!workout && p.purpose.None? && FromDailyFlow(r.sourceIds))))
  {
    hide FromKnownTest, FromDailyFlow, HasEventType, IsTestArtefact;
    Closed(p.environment, p.scope);
    ClosedPurpose(p.purpose);
    KnownTestsMean(r, p);
  }

  lemma ClosedPurpose(p: Option<Purpose>)
    ensures || p == None || p == Some(USER_OBSERVATION) || p == Some(SMOKE_TEST) || p == Some(CONTRACT_TEST)
            || p == Some(FIXTURE) || p == Some(MIGRATION) || p == Some(BACKFILL) || p == Some(DEMO)
  {
    if p.Some? {
      var v := p.value;
      assert v.USER_OBSERVATION? || v.SMOKE_TEST? || v.CONTRACT_TEST? || v.FIXTURE? || v.MIGRATION? || v.BACKFILL?
             || v.DEMO?;
    }
  }

  lemma Closed(e: Option<Environment>, s: Option<SubjectScope>)
    ensures e == None || e == Some(PRODUCTION) || e == Some(TEST) || e == Some(DEVELOPMENT)
    ensures s == None || s == Some(PERSONAL) || s == Some(TEST_PROFILE) || s == Some(SHARED_DEMO)
  {
    match e {
      case None =>
      case Some(v) => assert v.PRODUCTION? || v.TEST? || v.DEVELOPMENT?;
    }
    match s {
      case None =>
      case Some(v) => assert v.PERSONAL? || v.TEST_PROFILE? || v.SHARED_DEMO?;
    }
  }

  predicate IsWorkout(r: Row) { r.subject == "workout" || HasEventType(r, WORKOUT_EVENT_TYPE) }

  /** What selection knows besides the rows: their tags, the registry of invalidated ids, the scores of a row. */
  datatype Policy = Policy(tags: Row -> Provenance, exclusions: set<string>, scores: Row -> Scores)

  /** The canonical scores and signals of one check-in. */
  datatype Scores = Scores(
    happiness: Option<real>, stress: Option<real>, energy: Option<real>, productivity: Option<real>,
    sleepHours: Option<real>, gymDone: Option<bool>, socialActivity: Option<bool>, alcohol: Option<bool>)

  predicate IsIncluded(r: Row, policy: Policy) { Classify(r, policy.tags(r), policy.exclusions) == INCLUDED }

  function Included(rows: seq<Row>, policy: Policy): seq<Row> {
    if |rows| == 0 then []
    else
      var rest, r := Included(rows[..|rows| - 1], policy), rows[|rows| - 1];
      if IsIncluded(r, policy) then rest + [r] else rest
  }

  method SelectEffective(rows: seq<Row>, policy: Policy) returns (included: seq<Row>, decisions: seq<Decision>)
    ensures included == Included(rows, policy)
    ensures |decisions| == |rows|
            && forall i ::
                 0 <= i < |rows| ==> decisions[i] == Classify(rows[i], policy.tags(rows[i]), policy.exclusions)
  {
    hide Classify;
    included, decisions := [], [];
    for i := 0 to |rows|
      invariant included == Included(rows[..i], policy) && |decisions| == i
      invariant forall j :: 0 <= j < i ==> decisions[j] == Classify(rows[j], policy.tags(rows[j]), policy.exclusions)
    {
      assert rows[..i + 1][..i] == rows[..i];
      var decision := Classify(rows[i], policy.tags(rows[i]), policy.exclusions);
      decisions := decisions + [decision];
      if decision == INCLUDED { included := included + [rows[i]]; }
    }
    assert rows[..|rows|] == rows;
  }

  // ---- one reading per day ------------------------------------------------------------------

  datatype CheckInDay = CheckInDay(day: int, scores: Scores, position: nat)

  predicate IsCheckIn(r: Row) {
    r.domainPack == "life" && r.subject == "daily_check_in" && HasEventType(r, LIFE_EVENT_TYPE) && r.occurredAt.Some?
  }

  /** The calendar day of an instant, in UTC. */
  function DayOf(t: Time): int { t / DAY }

  function Reading(r: Row, policy: Policy): CheckInDay
    requires IsCheckIn(r)
  {
    CheckInDay(DayOf(r.occurredAt.value), policy.scores(r), r.position)
  }

  /** Later rows overwrite earlier ones of their day. */
  function ByDay(ordered: seq<Row>, policy: Policy): map<int, CheckInDay> {
    if |ordered| == 0 then map[]
    else
      var rest, r := ByDay(ordered[..|ordered| - 1], policy), ordered[|ordered| - 1];
      if IsCheckIn(r) then rest[DayOf(r.occurredAt.value) := Reading(r, policy)] else rest
  }

  function Extracted(rows: seq<Row>, policy: Policy): map<int, CheckInDay> {
    ByDay(Sorted(Included(rows, policy)), policy)
  }

  /** A list of the days, ascending. */
  ghost predicate ListsDays(days: seq<CheckInDay>, byDay: map<int, CheckInDay>) {
    && (forall i, j :: 0 <= i < j < |days| ==> days[i].day < days[j].day)
    && (forall i :: 0 <= i < |days| ==> days[i].day in byDay && byDay[days[i].day] == days[i])
    && (forall d :: d in byDay ==> byDay[d] in days)
  }

  method ExtractCheckInDays(rows: seq<Row>, policy: Policy) returns (days: seq<CheckInDay>)
    ensures ListsDays(days, Extracted(rows, policy))
  {
    var effective, decisions := SelectEffective(rows, policy);
    var ordered := Sorted(effective);
    var byDay: map<int, CheckInDay> := map[];
    for i := 0 to |ordered|
      invariant byDay == ByDay(ordered[..i], policy)
    {
      assert ordered[..i + 1][..i] == ordered[..i];
      var row := ordered[i];
      if row.domainPack == "life" && row.subject == "daily_check_in" && HasEventType(row, LIFE_EVENT_TYPE)
      && row.occurredAt.Some? {
        byDay := byDay[DayOf(row.occurredAt.value) := Reading(row, policy)];
      }
    }
    assert ordered[..|ordered|] == ordered;
    DaysAreKeys(ordered, policy);
    days := SortDays(byDay);
  }

  lemma DaysAreKeys(ordered: seq<Row>, policy: Policy)
    ensures forall d :: d in ByDay(ordered, policy) ==> ByDay(ordered, policy)[d].day == d
  {}

  /** The values in ascending order of day. */
  method SortDays(byDay: map<int, CheckInDay>) returns (days: seq<CheckInDay>)
    requires forall d :: d in byDay ==> byDay[d].day == d
    ensures ListsDays(days, byDay)
  {
    days := [];
    var left := byDay.Keys;
    while left != {}
      invariant left <= byDay.Keys
      invariant ListsDays(days, byDay - left)
      invariant forall d, i :: d in left && 0 <= i < |days| ==> days[i].day < d
      decreases |left|
    {
      var first := Smallest(left);
      OneDayMore(days, byDay - left, byDay - (left - {first}), byDay[first]);
      days := days + [byDay[first]];
      left := left - {first};
    }
    assert byDay - left == byDay;
  }

  lemma OneDayMore(days: seq<CheckInDay>, byDay: map<int, CheckInDay>, more: map<int, CheckInDay>, d: CheckInDay)
    requires ListsDays(days, byDay) && more == byDay[d.day := d]
    requires forall i :: 0 <= i < |days| ==> days[i].day < d.day
    ensures ListsDays(days + [d], more)
  {
    var longer := days + [d];
    forall x | x in more ensures more[x] in longer {
      if x == d.day { assert longer[|days|] == d; } else { assert byDay[x] in days; }
    }
  }

  // ---- what is promised ---------------------------------------------------------------------

  lemma {:induction false} IncludedOfConcat(a: seq<Row>, b: seq<Row>, policy: Policy)
    ensures Included(a + b, policy) == Included(a, policy) + Included(b, policy)
  {
    hide Classify;
    if |b| == 0 {
      assert a + b == a;
    } else {
      assert (a + b)[..|a + b| - 1] == a + b[..|b| - 1];
      IncludedOfConcat(a, b[..|b| - 1], policy);
    }
  }

  /** Rows that are not included, put in or taken out anywhere, leave the extracted days unchanged. */
  lemma ExcludedRowsDoNotMatter(a: seq<Row>, excluded: seq<Row>, b: seq<Row>, policy: Policy)
    requires forall i :: 0 <= i < |excluded| ==> !IsIncluded(excluded[i], policy)
    ensures Extracted(a + excluded + b, policy) == Extracted(a + b, policy)
  {
    NoneIncluded(excluded, policy);
    IncludedOfConcat(a, excluded, policy);
    IncludedOfConcat(a + excluded, b, policy);
    IncludedOfConcat(a, b, policy);
    assert Included(a, policy) + [] == Included(a, policy);
  }

  lemma NoneIncluded(rows: seq<Row>, policy: Policy)
    requires forall i :: 0 <= i < |rows| ==> !IsIncluded(rows[i], policy)
    ensures Included(rows, policy) == []
  {
    hide Classify;
  }

  lemma {:induction false} IncludedMembers(rows: seq<Row>, policy: Policy)
    ensures forall r :: r in Included(rows, policy) <==> r in rows && IsIncluded(r, policy)
    ensures forall r :: multiset(Included(rows, policy))[r] == if IsIncluded(r, policy) then multiset(rows)[r] else 0
  {
    hide IsIncluded;
    if |rows| > 0 {
      IncludedMembers(rows[..|rows| - 1], policy);
      assert rows == rows[..|rows| - 1] + [rows[|rows| - 1]];
    }
  }

  /** The extracted days do not depend on the order of the rows. */
  lemma ExtractionIsOrderIndependent(rows: seq<Row>, other: seq<Row>, policy: Policy)
    requires multiset(rows) == multiset(other) && Keyed(rows)
    ensures Extracted(rows, policy) == Extracted(other, policy)
  {
    hide IsIncluded, ByDay;
    IncludedMembers(rows, policy);
    IncludedMembers(other, policy);
    var a, b := Included(rows, policy), Included(other, policy);
    assert multiset(a) == multiset(b);
    SortSorts(a);
    SortSorts(b);
    SameMembers(a);
    AscendingIsUnique(Sorted(a), Sorted(b));
  }

  predicate IsOfDay(r: Row, d: int) { IsCheckIn(r) && DayOf(r.occurredAt.value) == d }

  lemma {:induction false} LastOfDay(ordered: seq<Row>, policy: Policy, d: int)
    requires Ascending(ordered)
    ensures d in ByDay(ordered, policy) <==> exists r :: r in ordered && IsOfDay(r, d)
    ensures d in ByDay(ordered, policy) ==>
              exists r :: && r in ordered && IsOfDay(r, d) && ByDay(ordered, policy)[d] == Reading(r, policy)
                          && forall q :: q in ordered && IsOfDay(q, d) && q != r ==> Precedes(q, r)
  {
    if |ordered| == 0 { return; }
    hide IsCheckIn, Precedes, Ascending, IsOfDay, Reading, ByDay;
    DayTaken(ordered, policy, d);
    var init, last := ordered[..|ordered| - 1], ordered[|ordered| - 1];
    AscendingInit(ordered);
    LastOfDay(init, policy, d);
    BeforeLast(ordered, init, last);
    if IsOfDay(last, d) {
      assert last in ordered;
    } else if d in ByDay(init, policy) {
      var r :| && r in init && IsOfDay(r, d) && ByDay(init, policy)[d] == Reading(r, policy)
               && forall q :: q in init && IsOfDay(q, d) && q != r ==> Precedes(q, r);
      assert r in ordered;
    }
  }

  /** What the last row does to the days. */
  lemma DayTaken(ordered: seq<Row>, policy: Policy, d: int)
    requires |ordered| > 0
    ensures var init, last := ByDay(ordered[..|ordered| - 1], policy), ordered[|ordered| - 1];
            if IsOfDay(last, d) then d in ByDay(ordered, policy) && ByDay(ordered, policy)[d] == Reading(last, policy)
            else && (d in ByDay(ordered, policy) <==> d in init)
                 && (d in init ==> ByDay(ordered, policy)[d] == init[d])
  {}

  lemma BeforeLast(ordered: seq<Row>, init: seq<Row>, last: Row)
    requires Ascending(ordered) && ordered == init + [last]
    ensures forall q :: q in ordered <==> q in init || q == last
    ensures forall q :: q in init ==> Precedes(q, last)
  {
    hide Precedes;
    forall q | q in init ensures Precedes(q, last) {
      var i :| 0 <= i < |init| && init[i] == q;
      assert ordered[i] == q && ordered[|init|] == last;
    }
  }

  /** A daily check-in at a time of the calendar day, counted in UTC from the epoch. */
  predicate ChecksInOn(r: Row, d: int) {
    && r.domainPack == "life" && r.subject == "daily_check_in" && "life_event_type" in r.metadata
    && r.metadata["life_event_type"] == JString("life.daily_check_in.completed.v1") && r.occurredAt.Some?
    && d * 86_400_000_000 <= r.occurredAt.value < (d + 1) * 86_400_000_000
  }

  lemma DayMeans(r: Row, d: int)
    ensures IsOfDay(r, d) <==> ChecksInOn(r, d)
  {}

  /** The reading of the day is that of the check-in: its position and its scores. */
  predicate ReadFrom(day: CheckInDay, r: Row, d: int, policy: Policy) {
    day.day == d && day.position == r.position && day.scores == policy.scores(r)
  }

  predicate IsReading(day: CheckInDay, r: Row, policy: Policy) { IsCheckIn(r) && day == Reading(r, policy) }

  lemma ReadingMeans(day: CheckInDay, r: Row, d: int, policy: Policy)
    requires IsOfDay(r, d) && IsReading(day, r, policy)
    ensures ReadFrom(day, r, d, policy)
  {}

  lemma LatestReading(rows: seq<Row>, policy: Policy, d: int)
    ensures d in Extracted(rows, policy) <==> exists r :: r in rows && IsIncluded(r, policy) && IsOfDay(r, d)
    ensures d in Extracted(rows, policy) ==>
              exists r :: && r in rows && IsIncluded(r, policy) && IsOfDay(r, d)
                          && IsReading(Extracted(rows, policy)[d], r, policy)
                          && forall q ::
                               q in rows && IsIncluded(q, policy) && IsOfDay(q, d) && q != r ==> Precedes(q, r)
  {
    hide IsIncluded, IsCheckIn, Precedes;
    var included := Included(rows, policy);
    IncludedMembers(rows, policy);
    SortSorts(included);
    SameMembers(included);
    LastOfDay(Sorted(included), policy, d);
  }

  /**
   * Each calendar day is read from its included check-in of greatest position, the entry carrying that row's
   * position and scores, and a day without one is absent.
   */
  lemma LatestCheckInWins(rows: seq<Row>, policy: Policy, d: int)
    ensures d in Extracted(rows, policy) <==> exists r :: r in rows && IsIncluded(r, policy) && ChecksInOn(r, d)
    ensures d in Extracted(rows, policy) ==>
              exists r :: && r in rows && IsIncluded(r, policy) && ChecksInOn(r, d)
                          && ReadFrom(Extracted(rows, policy)[d], r, d, policy)
                          && forall q ::
                               q in rows && IsIncluded(q, policy) && ChecksInOn(q, d) && q != r ==> Precedes(q, r)
  {
    hide IsIncluded, Precedes, IsOfDay, ChecksInOn, Reading, ReadFrom, Extracted;
    LatestReading(rows, policy, d);
    forall r ensures IsOfDay(r, d) <==> ChecksInOn(r, d) { DayMeans(r, d); }
    if d in Extracted(rows, policy) {
      var r :| && r in rows && IsIncluded(r, policy) && IsOfDay(r, d)
               && IsReading(Extracted(rows, policy)[d], r, policy)
               && forall q :: q in rows && IsIncluded(q, policy) && IsOfDay(q, d) && q != r ==> Precedes(q, r);
      ReadingMeans(Extracted(rows, policy)[d], r, d, policy);
    }
  }

  /** Included check-ins of different calendar days are extracted under different days, and each is of just one. */
  lemma DifferentDaysAreKept(rows: seq<Row>, policy: Policy, r: Row, d: int, q: Row, e: int)
    requires r in rows && IsIncluded(r, policy) && ChecksInOn(r, d)
    requires q in rows && IsIncluded(q, policy) && ChecksInOn(q, e) && d != e
    ensures d in Extracted(rows, policy) && e in Extracted(rows, policy)
    ensures Extracted(rows, policy)[d].day == d && Extracted(rows, policy)[e].day == e
    ensures !ChecksInOn(r, e) && !ChecksInOn(q, d)
  {
    hide IsIncluded;
    LatestCheckInWins(rows, policy, d);
    LatestCheckInWins(rows, policy, e);
  }

  // ---- the trailing window ------------------------------------------------------------------

  function Window(days: seq<CheckInDay>, start: int, asOf: int): seq<CheckInDay> {
    if |days| == 0 then []
    else
      var rest, d := Window(days[..|days| - 1], start, asOf), days[|days| - 1];
      if start <= d.day <= asOf then rest + [d] else rest
  }

  function DaySet(days: seq<CheckInDay>): set<int> { set i | 0 <= i < |days| :: days[i].day }

  function Expected(start: int, n: nat): (s: set<int>)
    ensures |s| == n && forall d :: d in s <==> start <= d < start + n
  {
    if n == 0 then {} else Expected(start, n - 1) + {start + n - 1}
  }

  function SampleSize(days: seq<CheckInDay>, n: nat, asOf: int): nat { |Window(days, asOf - (n - 1), asOf)| }

  function MissingDays(days: seq<CheckInDay>, n: nat, asOf: int): nat {
    |Expected(asOf - (n - 1), n) - DaySet(Window(days, asOf - (n - 1), asOf))|
  }

  ghost predicate DistinctDays(days: seq<CheckInDay>) {
    forall i, j :: 0 <= i < j < |days| ==> days[i].day != days[j].day
  }

  lemma {:induction false} DaySetSize(days: seq<CheckInDay>)
    ensures |DaySet(days)| <= |days|
    ensures |DaySet(days)| == |days| <==> DistinctDays(days)
  {
    if |days| > 0 {
      var init, last := days[..|days| - 1], days[|days| - 1];
      DaySetSize(init);
      assert days == init + [last];
      assert DaySet(days) == DaySet(init) + {last.day};
      if last.day in DaySet(init) {
        var i :| 0 <= i < |init| && init[i].day == last.day;
        assert days[i].day == days[|days| - 1].day;
      } else {
        assert forall i :: 0 <= i < |init| ==> init[i].day in DaySet(init);
      }
    }
  }

  lemma {:induction false} WindowWithin(days: seq<CheckInDay>, start: int, asOf: int)
    ensures forall i :: 0 <= i < |Window(days, start, asOf)| ==> start <= Window(days, start, asOf)[i].day <= asOf
    ensures forall x :: x in Window(days, start, asOf) ==> x in days
  {
    if |days| > 0 {
      WindowWithin(days[..|days| - 1], start, asOf);
      assert days == days[..|days| - 1] + [days[|days| - 1]];
    }
  }

  /** The days of the last `n` up to the date that have no reading. */
  ghost function Unread(days: seq<CheckInDay>, n: nat, asOf: int): set<int> {
    set d | asOf - n < d <= asOf && !HasReading(days, d)
  }

  ghost predicate HasReading(days: seq<CheckInDay>, d: int) { exists i :: 0 <= i < |days| && days[i].day == d }

  /**
   * The sample counts the readings of the last `n` days up to the date, the missing ones those days without a
   * reading.
   */
  lemma WindowExactly(days: seq<CheckInDay>, n: nat, asOf: int)
    ensures var window := Window(days, asOf - (n - 1), asOf);
            && SampleSize(days, n, asOf) == |window|
            && (forall x :: x in window <==> x in days && asOf - n < x.day <= asOf)
            && MissingDays(days, n, asOf) == |Unread(days, n, asOf)|
  {
    hide Window, DaySet, HasReading;
    var start := asOf - (n - 1);
    WindowMembers(days, start, asOf);
    var missing := Expected(start, n) - DaySet(Window(days, start, asOf));
    forall d ensures d in missing <==> d in Unread(days, n, asOf) { DayOfWindow(days, start, asOf, d); }
    assert missing == Unread(days, n, asOf);
  }

  lemma {:induction false} WindowMembers(days: seq<CheckInDay>, start: int, asOf: int)
    ensures forall x :: x in Window(days, start, asOf) <==> x in days && start <= x.day <= asOf
  {
    if |days| > 0 {
      WindowMembers(days[..|days| - 1], start, asOf);
      assert days == days[..|days| - 1] + [days[|days| - 1]];
    }
  }

  lemma DayOfWindow(days: seq<CheckInDay>, start: int, asOf: int, d: int)
    ensures d in DaySet(Window(days, start, asOf)) <==>
            start <= d <= asOf && HasReading(days, d)
  {
    WindowMembers(days, start, asOf);
    var window := Window(days, start, asOf);
    if start <= d <= asOf && HasReading(days, d) {
      var i :| 0 <= i < |days| && days[i].day == d;
      assert days[i] in window;
    }
    if d in DaySet(window) {
      var i :| 0 <= i < |window| && window[i].day == d;
      assert window[i] in days;
      var j :| 0 <= j < |days| && days[j] == window[i];
    }
  }

  /** Sample and missing days add up to the window exactly when no day in it was given twice. */
  lemma WindowAddsUp(days: seq<CheckInDay>, n: nat, asOf: int)
    ensures SampleSize(days, n, asOf) + MissingDays(days, n, asOf) == n
            <==> DistinctDays(Window(days, asOf - (n - 1), asOf))
  {
    var start := asOf - (n - 1);
    var window := Window(days, start, asOf);
    DaySetSize(window);
    WindowWithin(days, start, asOf);
    DifferenceSize(Expected(start, n), DaySet(window));
  }

  lemma DifferenceSize(all: set<int>, some: set<int>)
    requires some <= all
    ensures |all - some| + |some| == |all|
  {
    assert all == (all - some) + some;
  }

  /** For days as extraction lists them, sample and missing days always add up to the window. */
  lemma ExtractedWindowAddsUp(days: seq<CheckInDay>, byDay: map<int, CheckInDay>, n: nat, asOf: int)
    requires ListsDays(days, byDay)
    ensures SampleSize(days, n, asOf) + MissingDays(days, n, asOf) == n
  {
    WindowAddsUp(days, n, asOf);
    WindowAscends(days, asOf - (n - 1), asOf);
  }

  lemma {:induction false} WindowAscends(days: seq<CheckInDay>, start: int, asOf: int)
    requires forall i, j :: 0 <= i < j < |days| ==> days[i].day < days[j].day
    ensures DistinctDays(Window(days, start, asOf))
  {
    if |days| > 0 {
      var init := days[..|days| - 1];
      WindowAscends(init, start, asOf);
      WindowWithin(init, start, asOf);
      assert forall x :: x in init ==> x.day < days[|days| - 1].day;
    }
  }
}
