/**
 * Which reason leaves a row out, what the histogram counts, and which side of the exposure threshold a member
 * is on.
 */
module CohortReasons {
  import opened Common
  import opened Ledger
  import opened Database
  import opened Eligibility
  import opened EligibilityTheorems
  import opened CohortTheorems

  // ---- source ids ---------------------------------------------------------------------------

  /** One or more letters, digits, underscores and hyphens. */
  predicate IsName(id: string) {
    |id| > 0 && forall i :: 0 <= i < |id| ==>
      'A' <= id[i] <= 'Z' || 'a' <= id[i] <= 'z' || '0' <= id[i] <= '9' || id[i] == '_' || id[i] == '-'
  }

  /** A source id is the prefix and a name, and possibly one line break. */
  lemma SourceIdExactly(s: string)
    ensures IsSourceId(s) <==>
            exists id :: IsName(id) && (s == "lifemaxxxing://daily-check-ins/" + id
                                        || s == "lifemaxxxing://daily-check-ins/" + id + "\n")
  {
    var prefix := SOURCE_PREFIX;
    if IsSourceId(s) {
      TailAfter(s, prefix);
      assert IsName(if s[|s| - 1] == '\n' then s[|prefix|..|s| - 1] else s[|prefix|..]);
    }
    if id :| IsName(id) && (s == prefix + id || s == prefix + id + "\n") { NameAfter(s, prefix, id); }
  }

  lemma TailAfter(s: string, prefix: string)
    requires |s| > |prefix| && s[..|prefix|] == prefix
    ensures s == prefix + s[|prefix|..]
    ensures s[|s| - 1] == '\n' ==> s == prefix + s[|prefix|..|s| - 1] + "\n"
  {}

  lemma NameAfter(s: string, prefix: string, id: string)
    requires IsName(id) && (s == prefix + id || s == prefix + id + "\n")
    ensures s[..|prefix|] == prefix && |s| > |prefix|
    ensures id == if s[|s| - 1] == '\n' then s[|prefix|..|s| - 1] else s[|prefix|..]
  {
    assert s == prefix + id ==> s[|s| - 1] == id[|id| - 1];
  }

  // ---- screening reasons --------------------------------------------------------------------

  /** How far a row gets: through scope and kind, to its time, its source, its fields, their numbers. */
  predicate InScope(r: Row, k: StreamKey) {
    r.tenantId == k.tenantId && r.ownerId == k.ownerId && r.applicationId == k.applicationId
  }

  predicate IsCheckInOf(r: Row, k: StreamKey) {
    && InScope(r, k) && r.domainPack == "life" && r.subject == "daily_check_in" && r.knowledgeClass == "OBSERVED_FACT"
    && "life_event_type" in r.metadata && r.metadata["life_event_type"] == JString("life.daily_check_in.completed.v1")
  }

  ghost predicate IsSourced(r: Row, k: StreamKey) {
    IsCheckInOf(r, k) && r.occurredAt.Some? && exists i :: 0 <= i < |r.sourceIds| && IsSourceId(r.sourceIds[i])
  }

  predicate Has(r: Row, name: string) {
    && "attributes" in r.context && r.context["attributes"].JObject?
    && name in r.context["attributes"].fields && !r.context["attributes"].fields[name].JNull?
  }

  ghost predicate IsComplete(r: Row, k: StreamKey) {
    IsSourced(r, k) && Has(r, "sleep_hours") && Has(r, "productivity")
  }

  /** The conversion refuses the value: a list, an object, or a text that is no number. */
  predicate Refused(r: Row, name: string, parse: string -> Number)
    requires Has(r, name)
  {
    var v := r.context["attributes"].fields[name];
    v.JArray? || v.JObject? || (v.JString? && parse(v.s).NotANumber?)
  }

  ghost predicate IsNumeric(r: Row, k: StreamKey, parse: string -> Number) {
    IsComplete(r, k) && !Refused(r, "sleep_hours", parse) && !Refused(r, "productivity", parse)
  }

  ghost predicate InRange(r: Row, name: string, parse: string -> Number, low: real, high: real)
    requires Has(r, name)
  {
    exists x :: ReadsAs(r.context["attributes"].fields, name, parse, x) && low <= x <= high
  }

  /** Each reason is given exactly when everything checked before it holds and its own check fails. */
  lemma ReasonsExactly(r: Row, k: StreamKey, parse: string -> Number)
    ensures Screen(r, k, parse) == Excluded(OTHER_SCOPE) <==> !InScope(r, k)
    ensures Screen(r, k, parse) == Excluded(WRONG_DOMAIN_PACK) <==> InScope(r, k) && r.domainPack != "life"
    ensures Screen(r, k, parse) == Excluded(WRONG_SUBJECT) <==>
            InScope(r, k) && r.domainPack == "life" && r.subject != "daily_check_in"
    ensures Screen(r, k, parse) == Excluded(WRONG_KNOWLEDGE_CLASS) <==>
            && InScope(r, k) && r.domainPack == "life" && r.subject == "daily_check_in"
            && r.knowledgeClass != "OBSERVED_FACT"
    ensures Screen(r, k, parse) == Excluded(WRONG_EVENT_TYPE) <==>
            && InScope(r, k) && r.domainPack == "life" && r.subject == "daily_check_in"
            && r.knowledgeClass == "OBSERVED_FACT" && !IsCheckInOf(r, k)
    ensures Screen(r, k, parse) == Excluded(MISSING_OCCURRED_AT) <==> IsCheckInOf(r, k) && r.occurredAt.None?
    ensures Screen(r, k, parse) == Excluded(SOURCE_ID_FORMAT_REQUIRED) <==>
            IsCheckInOf(r, k) && r.occurredAt.Some? && !IsSourced(r, k)
    ensures Screen(r, k, parse) == Excluded(MISSING_REQUIRED_FIELDS) <==> IsSourced(r, k) && !IsComplete(r, k)
    ensures Screen(r, k, parse) == Excluded(INVALID_VALUES) <==> IsComplete(r, k) && !IsNumeric(r, k, parse)
    ensures Screen(r, k, parse) == Excluded(INVALID_SLEEP_HOURS) <==>
            IsNumeric(r, k, parse) && !InRange(r, "sleep_hours", parse, 0.0, 24.0)
    ensures Screen(r, k, parse) == Excluded(INVALID_PRODUCTIVITY) <==>
            && IsNumeric(r, k, parse) && InRange(r, "sleep_hours", parse, 0.0, 24.0)
            && !InRange(r, "productivity", parse, 1.0, 10.0)
  {
    hide IsSourceId, Within, ToFloat, InRange, Refused, ReadsAs, MappingVersion;
    SourceExists(r.sourceIds);
    NumbersMean(r, "sleep_hours", 0.0, 24.0, parse);
    NumbersMean(r, "productivity", 1.0, 10.0, parse);
  }

  lemma NumbersMean(r: Row, name: string, low: real, high: real, parse: string -> Number)
    ensures Has(r, name) <==> !Absent(Attributes(r.context), name)
    ensures Has(r, name) ==>
              && (Refused(r, name, parse) <==> ToFloat(Attributes(r.context)[name], parse).NotANumber?)
              && (InRange(r, name, parse, low, high)
                  <==> Within(ToFloat(Attributes(r.context)[name], parse), low, high))
  {
    if Has(r, name) { MeasuredMeans(Attributes(r.context), name, low, high, parse); }
  }

  // ---- placement reasons --------------------------------------------------------------------

  /** Five minutes past the start of the evaluation. */
  predicate InFuture(o: Eligible, a: Anchors) { o.occurredAt > a.startedAt + 300_000_000 }

  predicate Early(o: Eligible, a: Anchors) { !InFuture(o, a) && o.occurredAt < a.baselineCutoff }

  predicate Late(o: Eligible, a: Anchors) {
    !InFuture(o, a) && o.occurredAt >= a.baselineCutoff && o.occurredAt >= a.prospectiveStart
  }

  predicate KnownBefore(o: Eligible, a: Anchors) {
    o.position < a.activationPosition && o.recordedAt <= a.activationRecordedAt
  }

  /** Both cohorts and each reason of the split have their exact condition. */
  lemma PlacementsExactly(o: Eligible, a: Anchors)
    ensures Place(o, a) == Left(OCCURRED_AT_IN_FUTURE) <==> InFuture(o, a)
    ensures Place(o, a) == Baseline <==> Early(o, a) && KnownBefore(o, a)
    ensures Place(o, a) == Left(BACKFILLED_AFTER_ACTIVATION) <==> Early(o, a) && !KnownBefore(o, a)
    ensures Place(o, a) == Left(PROSPECTIVE_REQUIRES_POST_ACTIVATION_GLOBAL_POSITION) <==>
            Late(o, a) && o.position <= a.activationPosition
    ensures Place(o, a) == Left(PROSPECTIVE_RECORDED_BEFORE_ACTIVATION) <==>
            Late(o, a) && o.position > a.activationPosition && o.recordedAt < a.activationRecordedAt
    ensures Place(o, a) == Left(OBSERVATION_RECORDED_AFTER_CUTOFF) <==>
            && Late(o, a) && o.position > a.activationPosition && o.recordedAt >= a.activationRecordedAt
            && (o.position > a.cutoffPosition || o.recordedAt > a.cutoffRecordedAt)
    ensures Place(o, a) == Prospective <==>
            && Late(o, a) && a.activationPosition < o.position <= a.cutoffPosition
            && a.activationRecordedAt <= o.recordedAt <= a.cutoffRecordedAt
    ensures Place(o, a) == Left(BETWEEN_BASELINE_AND_PROSPECTIVE) <==>
            !InFuture(o, a) && a.baselineCutoff <= o.occurredAt < a.prospectiveStart
  {}

  // ---- what the histograms count ------------------------------------------------------------

  function Screened(rows: seq<Row>, k: StreamKey, parse: string -> Number, reason: Reason): nat {
    if |rows| == 0 then 0
    else Screened(rows[..|rows| - 1], k, parse, reason)
         + if Screen(rows[|rows| - 1], k, parse) == Excluded(reason) then 1 else 0
  }

  /** The rows admitted for a source that an earlier row was admitted for, in conflict with the first of them or not. */
  function Repeated(rows: seq<Row>, k: StreamKey, parse: string -> Number, conflicting: bool): nat {
    if |rows| == 0 then 0
    else
      var init, r := rows[..|rows| - 1], rows[|rows| - 1];
      Repeated(init, k, parse, conflicting) + if Repeats(init, r, k, parse, conflicting) then 1 else 0
  }

  predicate Repeats(init: seq<Row>, r: Row, k: StreamKey, parse: string -> Number, conflicting: bool) {
    Screen(r, k, parse).Admitted? &&
    var o := Screen(r, k, parse).observation;
    var first := FirstOf(init, o.source, k, parse);
    first.Some? && Screen(first.value, k, parse).Admitted? &&
    var f := Screen(first.value, k, parse).observation;
    conflicting == (f.sleep != o.sleep || f.productivity != o.productivity || f.occurredAt != o.occurredAt
                    || f.mappingVersion != o.mappingVersion)
  }

  predicate IsScreeningReason(reason: Reason) {
    reason in {OTHER_SCOPE, WRONG_DOMAIN_PACK, WRONG_SUBJECT, WRONG_KNOWLEDGE_CLASS, WRONG_EVENT_TYPE,
               MISSING_OCCURRED_AT, SOURCE_ID_FORMAT_REQUIRED, MISSING_REQUIRED_FIELDS, INVALID_VALUES,
               INVALID_SLEEP_HOURS, INVALID_PRODUCTIVITY}
  }

  lemma ScreeningReasons(r: Row, k: StreamKey, parse: string -> Number)
    ensures Screen(r, k, parse).Excluded? ==> IsScreeningReason(Screen(r, k, parse).reason)
  {}

  lemma BumpedCounts(m: map<Reason, nat>, r: Reason, q: Reason)
    ensures Count(Bumped(m, r), q) == Count(m, q) + if q == r then 1 else 0
  {}

  /** What one row does to selection. */
  lemma TakenMeans(rows: seq<Row>, k: StreamKey, parse: string -> Number, reason: Reason)
    requires |rows| > 0
    ensures var init, r := rows[..|rows| - 1], rows[|rows| - 1];
            var s, t := TakeAll(init, k, parse), TakeAll(rows, k, parse);
            Count(t.reasons, reason) ==
            Count(s.reasons, reason) +
            if || Screen(r, k, parse) == Excluded(reason)
               || (reason == DUPLICATE_SOURCE_CONFLICT && Repeats(init, r, k, parse, true))
               || (reason == DUPLICATE_LOGICAL_SOURCE && Repeats(init, r, k, parse, false))
            then 1 else 0
  {
    hide Screen, Bumped, Count, IsScreeningReason;
    var init, r := rows[..|rows| - 1], rows[|rows| - 1];
    var s, screening := TakeAll(init, k, parse), Screen(r, k, parse);
    forall q ensures Count(Bumped(s.reasons, q), reason) == Count(s.reasons, reason) + if reason == q then 1 else 0 {
      BumpedCounts(s.reasons, q, reason);
    }
    ScreeningReasons(r, k, parse);
    DuplicatesAreNot();
    if screening.Admitted? { KeepsTheFirst(init, screening.observation.source, k, parse); }
  }

  lemma DuplicatesAreNot()
    ensures !IsScreeningReason(DUPLICATE_SOURCE_CONFLICT) && !IsScreeningReason(DUPLICATE_LOGICAL_SOURCE)
  {}

  /**
   * The histogram of a selection counts, for each screening reason, the rows it excluded, and for the two
   * duplicate reasons the rows admitted again for a source, with and without a conflict with the row kept.
   */
  lemma {:induction false} ReasonsCounted(rows: seq<Row>, k: StreamKey, parse: string -> Number, reason: Reason)
    ensures Count(TakeAll(rows, k, parse).reasons, reason) ==
            Screened(rows, k, parse, reason)
            + if reason == DUPLICATE_SOURCE_CONFLICT then Repeated(rows, k, parse, true)
              else if reason == DUPLICATE_LOGICAL_SOURCE then Repeated(rows, k, parse, false)
              else 0
  {
    hide Screen, Repeats, Take;
    if |rows| > 0 {
      var init, r := rows[..|rows| - 1], rows[|rows| - 1];
      ReasonsCounted(init, k, parse, reason);
      TakenMeans(rows, k, parse, reason);
      ScreeningReasons(r, k, parse);
    }
  }

  function PlacedAs(eligible: seq<Eligible>, a: Anchors, reason: Reason): nat {
    if |eligible| == 0 then 0
    else PlacedAs(eligible[..|eligible| - 1], a, reason)
         + if Place(eligible[|eligible| - 1], a) == Left(reason) then 1 else 0
  }

  /** The histogram of the split counts, for each reason, the observations it left out. */
  lemma {:induction false} LeftOutCounted(eligible: seq<Eligible>, a: Anchors, reason: Reason)
    ensures Count(LeftOut(eligible, a), reason) == PlacedAs(eligible, a, reason)
  {
    hide Place, Bumped;
    if |eligible| > 0 {
      var init, p := eligible[..|eligible| - 1], Place(eligible[|eligible| - 1], a);
      LeftOutCounted(init, a, reason);
      if p.Left? { BumpedCounts(LeftOut(init, a), p.reason, reason); }
    }
  }

  /** The cohort members at or above the threshold on one side, those below it on the other. */
  lemma {:induction false} ExposedMembers(cohort: seq<Eligible>, threshold: real, sufficient: bool)
    ensures forall o :: o in Exposed(cohort, threshold, sufficient) <==>
                        o in cohort && if sufficient then o.sleep >= threshold else o.sleep < threshold
  {
    if |cohort| > 0 {
      ExposedMembers(cohort[..|cohort| - 1], threshold, sufficient);
      assert cohort == cohort[..|cohort| - 1] + [cohort[|cohort| - 1]];
    }
  }

  /** A cohort keeps the order of the rows it is taken from, and each group the order of its cohort. */
  lemma {:induction false} CohortOrdered(eligible: seq<Eligible>, a: Anchors, p: Placement)
    requires OneEach(eligible)
    ensures OneEach(Cohort(eligible, a, p))
  {
    hide Place;
    if |eligible| > 0 {
      var init := eligible[..|eligible| - 1];
      CohortOrdered(init, a, p);
      CohortMembers(init, a, p);
      var rest := Cohort(init, a, p);
      forall i | 0 <= i < |rest| ensures rest[i] in init { assert rest[i] in rest; }
    }
  }

  lemma {:induction false} ExposedOrdered(cohort: seq<Eligible>, threshold: real, sufficient: bool)
    requires OneEach(cohort)
    ensures OneEach(Exposed(cohort, threshold, sufficient))
  {
    if |cohort| > 0 {
      var init := cohort[..|cohort| - 1];
      ExposedOrdered(init, threshold, sufficient);
      ExposedMembers(init, threshold, sufficient);
      var rest := Exposed(init, threshold, sufficient);
      forall i | 0 <= i < |rest| ensures rest[i] in init { assert rest[i] in rest; }
    }
  }
}
