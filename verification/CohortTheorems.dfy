/** Counting what selection keeps and leaves out, and cohorts as the log grows. */
module CohortTheorems {
  import opened Common
  import opened Ledger
  import opened Database
  import opened Eligibility
  import opened EligibilityTheorems

  // ---- what it takes ------------------------------------------------------------------------

  /** The value read as a number: numbers as they are, booleans as 0 and 1, texts as the conversion reads them. */
  predicate ReadsAs(m: map<string, Json>, name: string, parse: string -> Number, x: real) {
    && name in m
    && (|| (m[name].JNumber? && m[name].n == x)
        || (m[name].JBool? && x == if m[name].b then 1.0 else 0.0)
        || (m[name].JString? && parse(m[name].s) == Finite(x)))
  }

  /** The mapping version of the metadata, else of the attributes. */
  predicate VersionedAs(meta: map<string, Json>, attributes: map<string, Json>, version: Option<string>) {
    if "mapping_version" in meta && meta["mapping_version"].JString? then
      version == Some(meta["mapping_version"].s)
    else if "mapping_version" in attributes && attributes["mapping_version"].JString? then
      version == Some(attributes["mapping_version"].s)
    else version == None
  }

  /**
   * A row is admitted exactly as a timed, well-sourced daily check-in of the scope with both measures in range,
   * and is then observed with its own ids, position and times, its first well-formed source, the sleep and the
   * productivity its attributes give, and the mapping version of its metadata, else of its attributes.
   */
  lemma AdmittedExactly(r: Row, k: StreamKey, parse: string -> Number)
    ensures var attributes := if "attributes" in r.context && r.context["attributes"].JObject?
                              then r.context["attributes"].fields else map[];
            Screen(r, k, parse).Admitted? <==>
            && r.tenantId == k.tenantId && r.ownerId == k.ownerId && r.applicationId == k.applicationId
            && r.domainPack == "life" && r.subject == "daily_check_in" && r.knowledgeClass == "OBSERVED_FACT"
            && "life_event_type" in r.metadata
            && r.metadata["life_event_type"] == JString("life.daily_check_in.completed.v1")
            && r.occurredAt.Some? && (exists i :: 0 <= i < |r.sourceIds| && IsSourceId(r.sourceIds[i]))
            && (exists x :: ReadsAs(attributes, "sleep_hours", parse, x) && 0.0 <= x <= 24.0)
            && (exists y :: ReadsAs(attributes, "productivity", parse, y) && 1.0 <= y <= 10.0)
    ensures Screen(r, k, parse).Admitted? ==>
              var o := Screen(r, k, parse).observation;
              && o.observationId == r.observationId && o.eventId == r.eventId && o.position == r.position
              && r.occurredAt == Some(o.occurredAt) && o.recordedAt == r.createdAt
              && o.attributes == (if "attributes" in r.context && r.context["attributes"].JObject?
                                  then r.context["attributes"].fields else map[])
              && ReadsAs(o.attributes, "sleep_hours", parse, o.sleep)
              && ReadsAs(o.attributes, "productivity", parse, o.productivity)
              && VersionedAs(r.metadata, o.attributes, o.mappingVersion)
              && FirstSource(r.sourceIds, o.source)
  {
    hide IsSourceId;
    SourceExists(r.sourceIds);
    var attributes := Attributes(r.context);
    MeasuredMeans(attributes, "sleep_hours", 0.0, 24.0, parse);
    MeasuredMeans(attributes, "productivity", 1.0, 10.0, parse);
  }

  /** The first of the ids that is well formed. */
  ghost predicate FirstSource(ids: seq<string>, source: string) {
    exists i :: && 0 <= i < |ids| && ids[i] == source && IsSourceId(source)
                && forall j :: 0 <= j < i ==> !IsSourceId(ids[j])
  }

  predicate Measured(m: map<string, Json>, name: string, low: real, high: real, parse: string -> Number) {
    !Absent(m, name) && ToFloat(m[name], parse).Finite? && low <= ToFloat(m[name], parse).value <= high
  }

  lemma MeasuredMeans(m: map<string, Json>, name: string, low: real, high: real, parse: string -> Number)
    ensures Measured(m, name, low, high, parse) <==> exists x :: ReadsAs(m, name, parse, x) && low <= x <= high
    ensures Measured(m, name, low, high, parse) ==> ReadsAs(m, name, parse, ToFloat(m[name], parse).value)
  {
    if Measured(m, name, low, high, parse) { assert ReadsAs(m, name, parse, ToFloat(m[name], parse).value); }
  }

  lemma {:induction false} SourceExists(ids: seq<string>)
    ensures LogicalSource(ids).Some? <==> exists i :: 0 <= i < |ids| && IsSourceId(ids[i])
    ensures LogicalSource(ids).Some? ==> FirstSource(ids, LogicalSource(ids).value)
  {
    hide IsSourceId;
    if |ids| > 0 {
      SourceExists(ids[1..]);
      if IsSourceId(ids[0]) {
        assert FirstSource(ids, ids[0]);
      } else if LogicalSource(ids[1..]).Some? {
        var source := LogicalSource(ids[1..]).value;
        var i :| 0 <= i < |ids[1..]| && ids[1..][i] == source && IsSourceId(source)
                 && forall j :: 0 <= j < i ==> !IsSourceId(ids[1..][j]);
        assert ids[i + 1] == source && forall j :: 0 < j < i + 1 ==> ids[j] == ids[1..][j - 1];
      }
    }
  }

  /**
   * Baseline: known to have happened, and been recorded, before the activation. Prospective: happened,
   * was recorded and entered the log after it, and no later than the evaluation's cutoffs.
   */
  lemma PlacementExactly(o: Eligible, a: Anchors)
    ensures Place(o, a) == Baseline <==>
            o.occurredAt < a.baselineCutoff && o.occurredAt <= a.startedAt + 5 * 60 * SECOND
            && o.position < a.activationPosition && o.recordedAt <= a.activationRecordedAt
    ensures Place(o, a) == Prospective <==>
            && a.baselineCutoff <= o.occurredAt <= a.startedAt + 5 * 60 * SECOND && a.prospectiveStart <= o.occurredAt
            && a.activationPosition < o.position <= a.cutoffPosition
            && a.activationRecordedAt <= o.recordedAt <= a.cutoffRecordedAt
  {}

  // ---- conservation -------------------------------------------------------------------------

  /** The sum of a histogram. */
  function Total(m: map<Reason, nat>): nat {
    Count(m, OTHER_SCOPE) + Count(m, WRONG_DOMAIN_PACK) + Count(m, WRONG_SUBJECT) + Count(m, WRONG_KNOWLEDGE_CLASS)
    + Count(m, WRONG_EVENT_TYPE) + Count(m, MISSING_OCCURRED_AT) + Count(m, SOURCE_ID_FORMAT_REQUIRED)
    + Count(m, MISSING_REQUIRED_FIELDS) + Count(m, INVALID_VALUES) + Count(m, INVALID_SLEEP_HOURS)
    + Count(m, INVALID_PRODUCTIVITY) + Count(m, DUPLICATE_SOURCE_CONFLICT) + Count(m, DUPLICATE_LOGICAL_SOURCE)
    + Count(m, OCCURRED_AT_IN_FUTURE) + Count(m, BACKFILLED_AFTER_ACTIVATION)
    + Count(m, PROSPECTIVE_REQUIRES_POST_ACTIVATION_GLOBAL_POSITION) + Count(m, PROSPECTIVE_RECORDED_BEFORE_ACTIVATION)
    + Count(m, OBSERVATION_RECORDED_AFTER_CUTOFF) + Count(m, BETWEEN_BASELINE_AND_PROSPECTIVE)
  }

  /** The histogram an evaluation reports: the reasons of selection and of the split added up. */
  function Merged(a: map<Reason, nat>, b: map<Reason, nat>): map<Reason, nat> {
    map r | r in a.Keys + b.Keys :: Count(a, r) + Count(b, r)
  }

  lemma BumpedTotal(m: map<Reason, nat>, r: Reason)
    ensures Total(Bumped(m, r)) == Total(m) + 1
  {
    hide Bumped, Count;
    CountBumped(m, r);
  }

  lemma CountBumped(m: map<Reason, nat>, r: Reason)
    ensures forall q :: Count(Bumped(m, r), q) == Count(m, q) + if q == r then 1 else 0
  {}

  lemma MergedTotal(a: map<Reason, nat>, b: map<Reason, nat>)
    ensures Total(Merged(a, b)) == Total(a) + Total(b)
  {
    assert forall r :: Count(Merged(a, b), r) == Count(a, r) + Count(b, r);
  }

  lemma {:induction false} TakingConserves(rows: seq<Row>, k: StreamKey, parse: string -> Number)
    ensures var s := TakeAll(rows, k, parse); |rows| == |s.kept| + s.excluded && s.excluded == Total(s.reasons)
  {
    hide Screen, Conflicts, Total, Bumped;
    if |rows| == 0 { NothingCounted(); return; }
    var init := rows[..|rows| - 1];
    TakingConserves(init, k, parse);
    forall r ensures Total(Bumped(TakeAll(init, k, parse).reasons, r)) == Total(TakeAll(init, k, parse).reasons) + 1 {
      BumpedTotal(TakeAll(init, k, parse).reasons, r);
    }
  }

  lemma NothingCounted()
    ensures Total(map[]) == 0
  {}

  lemma {:induction false} SplittingConserves(eligible: seq<Eligible>, a: Anchors)
    ensures |eligible| == |Cohort(eligible, a, Baseline)| + |Cohort(eligible, a, Prospective)|
            + Total(LeftOut(eligible, a))
  {
    hide Place, Total, Bumped;
    if |eligible| == 0 { NothingCounted(); return; }
    var init, p := eligible[..|eligible| - 1], Place(eligible[|eligible| - 1], a);
    SplittingConserves(init, a);
    if p.Left? { BumpedTotal(LeftOut(init, a), p.reason); }
  }

  lemma {:induction false} ExposureConserves(cohort: seq<Eligible>, threshold: real)
    ensures |Exposed(cohort, threshold, true)| + |Exposed(cohort, threshold, false)| == |cohort|
  {
    if |cohort| > 0 { ExposureConserves(cohort[..|cohort| - 1], threshold); }
  }

  /** Every scanned row is in the baseline, in the prospective cohort, or counted once under one reason. */
  lemma Conservation(rows: seq<Row>, k: StreamKey, parse: string -> Number, a: Anchors, threshold: real)
    ensures var s := Select(rows, k, parse);
            var baseline, prospective, left := Cohort(s.kept, a, Baseline), Cohort(s.kept, a,
                Prospective), LeftOut(s.kept, a);
            && |rows| == |baseline| + |prospective| + (s.excluded + Total(left))
            && Total(Merged(s.reasons, left)) == s.excluded + Total(left)
            && |Exposed(baseline, threshold, true)| + |Exposed(baseline, threshold, false)| == |baseline|
            && |Exposed(prospective, threshold, true)| + |Exposed(prospective, threshold, false)| == |prospective|
  {
    hide Total, Merged, Cohort, LeftOut, TakeAll, Exposed;
    var s := Select(rows, k, parse);
    SortSorts(rows);
    assert |multiset(Sorted(rows))| == |Sorted(rows)| && |multiset(rows)| == |rows|;
    TakingConserves(Sorted(rows), k, parse);
    SplittingConserves(s.kept, a);
    MergedTotal(s.reasons, LeftOut(s.kept, a));
    ExposureConserves(Cohort(s.kept, a, Baseline), threshold);
    ExposureConserves(Cohort(s.kept, a, Prospective), threshold);
  }

  // ---- growth -------------------------------------------------------------------------------

  lemma {:induction false} CohortMembers(eligible: seq<Eligible>, a: Anchors, p: Placement)
    ensures forall o :: o in Cohort(eligible, a, p) <==> o in eligible && Place(o, a) == p
  {
    hide Place;
    if |eligible| > 0 {
      CohortMembers(eligible[..|eligible| - 1], a, p);
      assert eligible == eligible[..|eligible| - 1] + [eligible[|eligible| - 1]];
    }
  }

  /** Longer lists of rows keep more, in the same order, and only rows that come later. */
  lemma {:induction false} TakingGrows(rows: seq<Row>, n: nat, k: StreamKey, parse: string -> Number)
    requires n <= |rows|
    ensures TakeAll(rows[..n], k, parse).kept <= TakeAll(rows, k, parse).kept
    ensures var early, all := TakeAll(rows[..n], k, parse).kept, TakeAll(rows, k, parse).kept;
            forall i :: |early| <= i < |all| ==> LaterRow(rows, n, all[i])
  {
    hide Screen, Conflicts, LaterRow;
    if n == |rows| {
      assert rows[..n] == rows;
    } else {
      var init := rows[..|rows| - 1];
      assert init[..n] == rows[..n];
      TakingGrows(init, n, k, parse);
      var early, most := TakeAll(rows[..n], k, parse).kept, TakeAll(init, k, parse).kept;
      forall i | |early| <= i < |most| ensures LaterRow(rows, n, most[i]) { LaterStays(rows, n, most[i]); }
      LastIsLater(rows, n, k, parse);
    }
  }

  /** The observation stems from a row at or past index `n`. */
  ghost predicate LaterRow(rows: seq<Row>, n: nat, o: Eligible) {
    exists i :: n <= i < |rows| && rows[i].position == o.position
  }

  lemma LaterStays(rows: seq<Row>, n: nat, o: Eligible)
    requires |rows| > 0 && LaterRow(rows[..|rows| - 1], n, o)
    ensures LaterRow(rows, n, o)
  {
    var i :| n <= i < |rows| - 1 && rows[..|rows| - 1][i].position == o.position;
    assert rows[i].position == o.position;
  }

  lemma LastIsLater(rows: seq<Row>, n: nat, k: StreamKey, parse: string -> Number)
    requires n < |rows|
    ensures Screen(rows[|rows| - 1], k, parse).Admitted? ==>
              LaterRow(rows, n, Screen(rows[|rows| - 1], k, parse).observation)
  {
    ScreenKeepsPosition(rows[|rows| - 1], k, parse);
  }

  /**
   * The same experiment evaluated later: its anchors fixed, cutoffs and clock not going back, activation in
   * the past.
   */
  predicate EvaluatedLater(a: Anchors, b: Anchors) {
    && b.baselineCutoff == a.baselineCutoff && b.prospectiveStart == a.prospectiveStart
    && b.activationPosition == a.activationPosition && b.activationRecordedAt == a.activationRecordedAt
    && a.cutoffPosition <= b.cutoffPosition && a.cutoffRecordedAt <= b.cutoffRecordedAt && a.startedAt <= b.startedAt
    && a.baselineCutoff <= a.startedAt && a.activationPosition <= a.cutoffPosition
  }

  lemma PlacementsFollow(o: Eligible, a: Anchors, b: Anchors)
    requires EvaluatedLater(a, b)
    ensures Place(o, a) == Baseline <==> Place(o, b) == Baseline
    ensures Place(o, a) == Prospective ==> Place(o, b) == Prospective
    ensures o.position > a.cutoffPosition ==> Place(o, a) != Baseline && Place(o, b) != Baseline
  {}

  lemma {:induction false} SameBaseline(eligible: seq<Eligible>, n: nat, a: Anchors, b: Anchors)
    requires n <= |eligible| && EvaluatedLater(a, b)
             && forall i :: n <= i < |eligible| ==> eligible[i].position > a.cutoffPosition
    ensures Cohort(eligible, b, Baseline) == Cohort(eligible[..n], a, Baseline)
    decreases |eligible|, n
  {
    hide Place, EvaluatedLater;
    if |eligible| == 0 { return; }
    var last := eligible[|eligible| - 1];
    PlacementsFollow(last, a, b);
    if n == |eligible| {
      assert eligible[..n] == eligible;
      var init := eligible[..n - 1];
      assert init[..n - 1] == init;
      SameBaseline(init, n - 1, a, b);
    } else {
      var init := eligible[..|eligible| - 1];
      assert init[..n] == eligible[..n];
      SameBaseline(init, n, a, b);
    }
  }

  lemma {:induction false} MoreProspective(eligible: seq<Eligible>, n: nat, a: Anchors, b: Anchors)
    requires n <= |eligible| && EvaluatedLater(a, b)
    ensures |Cohort(eligible[..n], a, Prospective)| <= |Cohort(eligible, b, Prospective)|
    decreases |eligible|, n
  {
    hide Place, EvaluatedLater;
    if |eligible| == 0 { return; }
    var last, init := eligible[|eligible| - 1], eligible[..|eligible| - 1];
    PlacementsFollow(last, a, b);
    if n == |eligible| {
      assert eligible[..n] == eligible && init[..n - 1] == init;
      MoreProspective(init, n - 1, a, b);
    } else {
      assert init[..n] == eligible[..n];
      MoreProspective(init, n, a, b);
    }
  }

  function TargetRemaining(target: int, prospective: seq<Eligible>): int { Max(0, target - |prospective|) }

  /**
   * Two evaluations of one experiment over a growing log, clock and cutoff not going back: the baseline
   * is the same, the earlier prospective cohort is contained in the later one, the cohorts share no
   * observation, and what remains to the target never grows.
   */
  lemma CohortsUnderGrowth(rows: seq<Row>, n: nat, k: StreamKey, parse: string -> Number, a: Anchors, b: Anchors,
                           target: int)
    requires Ascending(rows) && Keyed(rows) && n <= |rows| && EvaluatedLater(a, b)
    requires forall i :: n <= i < |rows| ==> rows[i].position > a.cutoffPosition
    ensures var early, late := Select(rows[..n], k, parse).kept, Select(rows, k, parse).kept;
            && Cohort(late, b, Baseline) == Cohort(early, a, Baseline)
            && (forall o :: o in Cohort(early, a, Prospective) ==> o in Cohort(late, b, Prospective))
            && (forall o, p ::
                o in Cohort(late, b, Baseline) && p in Cohort(late, b, Prospective) ==> o.position < p.position)
            && TargetRemaining(target, Cohort(late, b, Prospective)) <= TargetRemaining(target,
                   Cohort(early, a, Prospective))
  {
    hide TakeAll, Cohort, Place, Ascending, Keyed;
    AscendingPrefix(rows, n);
    AlreadySorted(rows);
    AlreadySorted(rows[..n]);
    var early, late := Select(rows[..n], k, parse).kept, Select(rows, k, parse).kept;
    TakingGrows(rows, n, k, parse);
    assert late[..|early|] == early;
    LaterPositions(rows, n, a.cutoffPosition, early, late);
    SameBaseline(late, |early|, a, b);
    MoreProspective(late, |early|, a, b);
    CohortMembers(early, a, Prospective);
    CohortMembers(late, b, Prospective);
    CohortMembers(late, b, Baseline);
    forall o | o in Cohort(early, a, Prospective) ensures o in Cohort(late, b, Prospective) {
      PlacementsFollow(o, a, b);
    }
    forall o, p | o in Cohort(late, b, Baseline) && p in Cohort(late, b, Prospective) ensures o.position < p.position {
      AnchorParts(o, p, b);
    }
  }

  lemma AnchorParts(o: Eligible, p: Eligible, a: Anchors)
    requires Place(o, a) == Baseline && Place(p, a) == Prospective
    ensures o.position < a.activationPosition < p.position
  {
    hide Place;
    PlacementExactly(o, a);
    PlacementExactly(p, a);
  }

  lemma AscendingPrefix(rows: seq<Row>, n: nat)
    requires Ascending(rows) && Keyed(rows) && n <= |rows|
    ensures Ascending(rows[..n]) && Keyed(rows[..n])
  {
    hide Precedes;
  }

  lemma AlreadySorted(rows: seq<Row>)
    requires Ascending(rows) && Keyed(rows)
    ensures Sorted(rows) == rows
  {
    SortSorts(rows);
    AscendingIsUnique(rows, Sorted(rows));
  }

  lemma LaterPositions(rows: seq<Row>, n: nat, cutoff: nat, early: seq<Eligible>, late: seq<Eligible>)
    requires n <= |rows| && early <= late && forall i :: |early| <= i < |late| ==> LaterRow(rows, n, late[i])
    requires forall i :: n <= i < |rows| ==> rows[i].position > cutoff
    ensures forall i :: |early| <= i < |late| ==> late[i].position > cutoff
  {}

  // ---- source ids -----------------------------------------------------------------------------

  /** One trailing line break passes the format check, so a source id with it is another source. */
  lemma LineBreakPasses(s: string)
    requires IsSourceId(s) && s[|s| - 1] != '\n'
    ensures IsSourceId(s + "\n") && !IsSourceId(s + "\n\n")
  {
    var n := |SOURCE_PREFIX|;
    var t, u := s + "\n", s + "\n\n";
    assert t[..n] == s[..n] && t[n..|t| - 1] == s[n..] && u[..n] == s[..n];
    assert u[|u| - 1] == '\n' && u[n..|u| - 1][|s| - n] == '\n';
    assert IsSourceId(u) ==> IsSourceChar(u[n..|u| - 1][|s| - n]);
  }
}
