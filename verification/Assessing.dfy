/** One evaluation's assessment, from the observation table to the belief state the classifier returns. */
module Assessing {
  import opened Common
  import opened Ledger
  import opened Database
  import opened Evaluation
  import opened Eligibility
  import opened EligibilityTheorems
  import opened CohortTheorems
  import opened CohortChanges
  import opened CohortReasons
  import E = Epistemic
  import F = Fingerprint
  import Scan = ObservationScan

  /** What the posterior sampling of two groups returns. */
  datatype Sampled = Sampled(posterior: Posterior, estimate: Estimate)

  /** What an evaluation takes from outside the tables: text to float, the sampling, the JSON of the parameters. */
  datatype Externals = Externals(
    parse: string -> Number, sample: (seq<Eligible>, seq<Eligible>, real) -> Sampled, json: (real, real) -> string)

  const METHOD := "BayesianBootstrapDifferenceInMeans.v1"

  function PhaseName(p: EvidencePhase): string {
    if p.BASELINE_EXPLORATORY? then "BASELINE_EXPLORATORY" else "PROSPECTIVE_VALIDATION"
  }

  /** The evaluation's own cutoffs: the stream head and the clock. */
  function AnchorsOf(x: E.Experiment, head: nat, now: Time): Anchors {
    Anchors(x.protocol.baselineCutoff, x.protocol.prospectiveStart, x.anchor.position, x.anchor.recordedAt, head, now,
            now)
  }

  function Rows(stored: seq<Row>, x: E.Experiment, head: nat): seq<Row> { Scan.Scanned(stored, x.key, head) }

  function CohortFor(stored: seq<Row>, x: E.Experiment, p: Placement, head: nat, now: Time,
                     ext: Externals): seq<Eligible>
  {
    Cohort(Select(Rows(stored, x, head), x.key, ext.parse).kept, AnchorsOf(x, head, now), p)
  }

  function PhaseCohort(stored: seq<Row>, x: E.Experiment, phase: EvidencePhase, head: nat, now: Time,
                       ext: Externals): seq<Eligible>
  {
    CohortFor(stored, x, if phase.BASELINE_EXPLORATORY? then Baseline else Prospective, head, now, ext)
  }

  function Group(stored: seq<Row>, x: E.Experiment, phase: EvidencePhase, sufficient: bool, head: nat, now: Time,
                 ext: Externals): seq<Eligible>
  {
    Exposed(PhaseCohort(stored, x, phase, head, now, ext), x.protocol.sleepThreshold, sufficient)
  }

  function EventIds(cohort: seq<Eligible>): seq<string> {
    seq(|cohort|, i requires 0 <= i < |cohort| => cohort[i].eventId)
  }

  function FingerprintInputs(cohort: seq<Eligible>, x: E.Experiment, phase: EvidencePhase, head: nat,
                             ext: Externals): F.Inputs
  {
    F.Inputs(x.key.tenantId, x.key.ownerId, x.key.applicationId, x.id, "1.0", PhaseName(phase), head, EventIds(cohort),
             METHOD,
             ext.json(x.protocol.sleepThreshold, x.protocol.meaningfulDifference))
  }

  function CountsOf(cohort: seq<Eligible>, threshold: real): E.Counts {
    E.Counts(|cohort|, |Exposed(cohort, threshold, true)|, |Exposed(cohort, threshold, false)|)
  }

  /** Without both groups there is nothing to sample. */
  function SampleOf(sufficient: seq<Eligible>, below: seq<Eligible>, difference: real, ext: Externals): Sampled {
    if |sufficient| > 0 && |below| > 0 then ext.sample(sufficient, below, difference)
    else Sampled(Posterior(0.5, 0.0, 0.0), Estimate(0.5, 0.0, 0.0, 0.0, difference))
  }

  function Expired(x: E.Experiment, phase: EvidencePhase, now: Time): bool {
    phase.PROSPECTIVE_VALIDATION? && now > E.Deadline(x)
  }

  function Assess(stored: seq<Row>, x: E.Experiment, phase: EvidencePhase, head: nat, now: Time, ext: Externals,
                  text: string): E.Assessment
  {
    var s := Select(Rows(stored, x, head), x.key, ext.parse);
    var a := AnchorsOf(x, head, now);
    var cohort := PhaseCohort(stored, x, phase, head, now, ext);
    var sufficient, below := Group(stored, x, phase, true, head, now, ext), Group(stored, x, phase, false, head, now,
        ext);
    var sampled := SampleOf(sufficient, below, x.protocol.meaningfulDifference, ext);
    E.Assessment(|s.kept|, s.excluded + Total(LeftOut(s.kept, a)),
                 CountsOf(Cohort(s.kept, a, Baseline), x.protocol.sleepThreshold),
                 CountsOf(Cohort(s.kept, a, Prospective), x.protocol.sleepThreshold),
                 s.critical, F.Material(FingerprintInputs(cohort, x, phase, head, ext)),
                 Classify(phase, |sufficient|, |below|, sampled.posterior, Expired(x, phase, now), x.protocol.target,
                          s.critical),
                 sampled.estimate, text)
  }

  /** The counts an evaluation stores add up to the rows it scanned. */
  lemma AssessmentConserves(stored: seq<Row>, x: E.Experiment, phase: EvidencePhase, head: nat, now: Time,
                            ext: Externals, text: string)
    ensures var a := Assess(stored, x, phase, head, now, ext, text);
            && |Rows(stored, x, head)| == a.baseline.eligible + a.prospective.eligible + a.excluded
            && a.baseline.sufficient + a.baseline.below == a.baseline.eligible
            && a.prospective.sufficient + a.prospective.below == a.prospective.eligible
  {
    hide Select, Cohort, LeftOut, Total, Rows, Exposed, F.Material, SampleOf, Classify;
    Conservation(Rows(stored, x, head), x.key, ext.parse, AnchorsOf(x, head, now), x.protocol.sleepThreshold);
  }

  /** No two admissible rows of one source contradict each other. */
  ghost predicate Sound(stored: seq<Row>, x: E.Experiment, head: nat, ext: Externals) {
    !AnyContradict(Rows(stored, x, head), x.key, ext.parse)
  }

  /** The prospective cohort has reached the target and both group minima. */
  predicate Reached(stored: seq<Row>, x: E.Experiment, head: nat, now: Time, ext: Externals) {
    && |CohortFor(stored, x, Prospective, head, now, ext)| >= x.protocol.target
    && |Group(stored, x, PROSPECTIVE_VALIDATION, true, head, now, ext)| >= 7
    && |Group(stored, x, PROSPECTIVE_VALIDATION, false, head, now, ext)| >= 7
  }

  /**
   * From the tables to the end of an experiment: a prospective evaluation is terminal exactly when its
   * window is over, or its rows are sound and its cohort has reached the target and both group minima;
   * each reason it gives has its own exact condition.
   */
  lemma TerminalFromRows(stored: seq<Row>, x: E.Experiment, head: nat, now: Time, ext: Externals, text: string)
    ensures var a := Assess(stored, x, PROSPECTIVE_VALIDATION, head, now, ext, text);
            var d, over := E.DecisionFor(x, PROSPECTIVE_VALIDATION, a, now), now > E.Deadline(x);
            var sound, reached := Sound(stored, x, head, ext), Reached(stored, x, head, now, ext);
            && (d.terminal <==> over || (sound && reached))
            && (d.reason == DATA_QUALITY_TERMINATION <==> !sound && over)
            && (d.reason == MAXIMUM_WINDOW_EXPIRED <==> sound && over && !reached)
            && (d.reason == TARGET_REACHED <==> sound && reached)
  {
    hide Select, Cohort, LeftOut, Total, Rows, Exposed, F.Material, SampleOf, AnyContradict, CohortFor, Classify,
        Decide;
    var sufficient := Group(stored, x, PROSPECTIVE_VALIDATION, true, head, now, ext);
    var below := Group(stored, x, PROSPECTIVE_VALIDATION, false, head, now, ext);
    EvaluationEndsExactly(|sufficient|, |below|,
                          SampleOf(sufficient, below, x.protocol.meaningfulDifference, ext).posterior,
                          now > E.Deadline(x), x.protocol.target, Select(Rows(stored, x, head), x.key,
                              ext.parse).critical);
    CriticalExactly(Rows(stored, x, head), x.key, ext.parse);
    ExposureConserves(CohortFor(stored, x, Prospective, head, now, ext), x.protocol.sleepThreshold);
  }

  /**
   * From the tables to support: an evaluation stores PROSPECTIVE_SUPPORTED exactly when it is prospective,
   * its rows are sound, its cohort has reached the target and both group minima, and the sampling of the
   * two groups gives the meaningful effect 95 percent and an interval above zero.
   */
  lemma SupportFromRows(stored: seq<Row>, x: E.Experiment, phase: EvidencePhase, head: nat, now: Time, ext: Externals,
                        text: string)
    ensures var sufficient := Group(stored, x, phase, true, head, now, ext);
            var below := Group(stored, x, phase, false, head, now, ext);
            var sampled := SampleOf(sufficient, below, x.protocol.meaningfulDifference, ext).posterior;
            E.DecisionFor(x, phase, Assess(stored, x, phase, head, now, ext, text), now).state.PROSPECTIVE_SUPPORTED?
            <==> && phase.PROSPECTIVE_VALIDATION? && Sound(stored, x, head, ext) && Reached(stored, x, head, now, ext)
                 && sampled.meaningful >= 0.95 && sampled.interval90Low > 0.0
  {
    hide Select, Cohort, LeftOut, Total, Rows, Exposed, F.Material, SampleOf, AnyContradict, CohortFor, Classify,
        Decide;
    var sufficient := Group(stored, x, phase, true, head, now, ext);
    var below := Group(stored, x, phase, false, head, now, ext);
    SupportExactly(phase, |sufficient|, |below|,
                   SampleOf(sufficient, below, x.protocol.meaningfulDifference, ext).posterior, Expired(x, phase, now),
                   x.protocol.target, Select(Rows(stored, x, head), x.key, ext.parse).critical);
    CriticalExactly(Rows(stored, x, head), x.key, ext.parse);
    ExposureConserves(CohortFor(stored, x, Prospective, head, now, ext), x.protocol.sleepThreshold);
  }

  // ---- what an assessment is made of --------------------------------------------------------

  /** The rows an evaluation keeps: selection over the scan up to the stream head. */
  function KeptRows(stored: seq<Row>, x: E.Experiment, head: nat, ext: Externals): seq<Eligible> {
    Select(Scan.Scanned(stored, x.key, head), x.key, ext.parse).kept
  }

  /**
   * The baseline of an experiment: what happened before its cutoff and was recorded by its activation. Its
   * prospective cohort: what happened from its start on, was recorded after the activation, and entered the
   * log by the stream head and the clock of the evaluation. Neither lies five minutes past that clock.
   */
  lemma CohortsFromRows(stored: seq<Row>, x: E.Experiment, head: nat, now: Time, ext: Externals, o: Eligible)
    ensures o in CohortFor(stored, x, Baseline, head, now, ext) <==>
            && o in KeptRows(stored, x, head, ext) && o.occurredAt <= now + 300_000_000
            && o.occurredAt < x.protocol.baselineCutoff
            && o.position < x.anchor.position && o.recordedAt <= x.anchor.recordedAt
    ensures o in CohortFor(stored, x, Prospective, head, now, ext) <==>
            && o in KeptRows(stored, x, head, ext) && o.occurredAt <= now + 300_000_000
            && x.protocol.baselineCutoff <= o.occurredAt && x.protocol.prospectiveStart <= o.occurredAt
            && x.anchor.position < o.position <= head && x.anchor.recordedAt <= o.recordedAt <= now
  {
    hide Select, Place;
    CohortMembers(KeptRows(stored, x, head, ext), AnchorsOf(x, head, now), Baseline);
    CohortMembers(KeptRows(stored, x, head, ext), AnchorsOf(x, head, now), Prospective);
    PlacementExactly(o, AnchorsOf(x, head, now));
  }

  /** The cohort members of a phase at or above the sleep threshold, or below it, one a source in position order. */
  lemma GroupsFromRows(stored: seq<Row>, x: E.Experiment, phase: EvidencePhase, head: nat, now: Time, ext: Externals)
    ensures var cohort := CohortFor(stored, x, if phase == BASELINE_EXPLORATORY then Baseline else Prospective, head,
                                    now, ext);
            var sufficient := Group(stored, x, phase, true, head, now, ext);
            var below := Group(stored, x, phase, false, head, now, ext);
            && (forall o :: o in sufficient <==> o in cohort && o.sleep >= x.protocol.sleepThreshold)
            && (forall o :: o in below <==> o in cohort && o.sleep < x.protocol.sleepThreshold)
            && |sufficient| + |below| == |cohort| && OneEach(cohort) && OneEach(sufficient) && OneEach(below)
  {
    CohortsOrdered(stored, x, if phase == BASELINE_EXPLORATORY then Baseline else Prospective, head, now, ext);
    hide CohortFor, OneEach;
    var cohort := PhaseCohort(stored, x, phase, head, now, ext);
    ExposedMembers(cohort, x.protocol.sleepThreshold, true);
    ExposedMembers(cohort, x.protocol.sleepThreshold, false);
    ExposedOrdered(cohort, x.protocol.sleepThreshold, true);
    ExposedOrdered(cohort, x.protocol.sleepThreshold, false);
    ExposureConserves(cohort, x.protocol.sleepThreshold);
  }

  lemma CohortsOrdered(stored: seq<Row>, x: E.Experiment, p: Placement, head: nat, now: Time, ext: Externals)
    ensures OneEach(CohortFor(stored, x, p, head, now, ext))
  {
    hide OneEach, Sorted, TakeAll, Cohort;
    SortSorts(Rows(stored, x, head));
    KeptIsOrdered(Sorted(Rows(stored, x, head)), x.key, ext.parse);
    CohortOrdered(KeptRows(stored, x, head, ext), AnchorsOf(x, head, now), p);
  }

  /** The ids are those of the events of the observations. */
  ghost predicate NamesEvents(ids: seq<string>, os: seq<Eligible>) {
    forall id :: id in ids <==> exists o :: o in os && o.eventId == id
  }

  /**
   * What an evaluation takes from the tables: how many rows were kept, both cohorts with their groups, the
   * data-quality flag, the text its fingerprint hashes, and the sampling of the groups of its own phase, or
   * the neutral numbers where a group is empty.
   */
  lemma AssessmentFromRows(stored: seq<Row>, x: E.Experiment, phase: EvidencePhase, head: nat, now: Time,
                           ext: Externals,
                           text: string)
    ensures var a := Assess(stored, x, phase, head, now, ext, text);
            var sufficient := Group(stored, x, phase, true, head, now, ext);
            var below := Group(stored, x, phase, false, head, now, ext);
            && a.eligible == |KeptRows(stored, x, head, ext)| && (a.critical <==> !Sound(stored, x, head, ext))
            && a.baseline == E.Counts(|CohortFor(stored, x, Baseline, head, now, ext)|,
                                      |Group(stored, x, BASELINE_EXPLORATORY, true, head, now, ext)|,
                                      |Group(stored, x, BASELINE_EXPLORATORY, false, head, now, ext)|)
            && a.prospective == E.Counts(|CohortFor(stored, x, Prospective, head, now, ext)|,
                                         |Group(stored, x, PROSPECTIVE_VALIDATION, true, head, now, ext)|,
                                         |Group(stored, x, PROSPECTIVE_VALIDATION, false, head, now, ext)|)
            && a.estimate == (if |sufficient| > 0 && |below| > 0
                              then ext.sample(sufficient, below, x.protocol.meaningfulDifference).estimate
                              else Estimate(0.5, 0.0, 0.0, 0.0, x.protocol.meaningfulDifference))
            && a.learningText == text
            && exists ids ::
                 && NamesEvents(ids, sufficient + below)
                 && a.fingerprint == F.Material(
                      F.Inputs(x.key.tenantId, x.key.ownerId, x.key.applicationId, x.id, "1.0",
                               if phase == BASELINE_EXPLORATORY then "BASELINE_EXPLORATORY"
                               else "PROSPECTIVE_VALIDATION",
                               head, ids, "BayesianBootstrapDifferenceInMeans.v1",
                               ext.json(x.protocol.sleepThreshold, x.protocol.meaningfulDifference)))
  {
    hide Select, Cohort, LeftOut, Total, Exposed, F.Material, Classify, AnyContradict;
    CriticalExactly(Rows(stored, x, head), x.key, ext.parse);
    GroupsFromRows(stored, x, phase, head, now, ext);
    var cohort := PhaseCohort(stored, x, phase, head, now, ext);
    var ids := EventIds(cohort);
    var groups := Group(stored, x, phase, true, head, now, ext) + Group(stored, x, phase, false, head, now, ext);
    forall id ensures id in ids <==> exists o :: o in groups && o.eventId == id {
      if id in ids {
        var i :| 0 <= i < |cohort| && ids[i] == id;
        assert cohort[i] in groups;
      }
      if o :| o in groups && o.eventId == id {
        assert o in cohort;
        var i :| 0 <= i < |cohort| && cohort[i] == o;
        assert ids[i] == id;
      }
    }
    assert NamesEvents(ids, groups);
  }

  // ---- the state of each phase --------------------------------------------------------------

  /**
   * A baseline evaluation never ends the experiment. It stores INSUFFICIENT_EVIDENCE exactly below 14 baseline
   * members or 5 in a group, and otherwise the side on which the sampling of the two baseline groups puts at
   * least 80 percent, or neither.
   */
  lemma BaselineFromRows(stored: seq<Row>, x: E.Experiment, head: nat, now: Time, ext: Externals, text: string)
    ensures var cohort := CohortFor(stored, x, Baseline, head, now, ext);
            var sufficient := Exposed(cohort, x.protocol.sleepThreshold, true);
            var below := Exposed(cohort, x.protocol.sleepThreshold, false);
            var d := E.DecisionFor(x, BASELINE_EXPLORATORY,
                                   Assess(stored, x, BASELINE_EXPLORATORY, head, now, ext, text), now);
            var enough := |cohort| >= 14 && |sufficient| >= 5 && |below| >= 5;
            var positive := ext.sample(sufficient, below, x.protocol.meaningfulDifference).posterior.positive;
            && !d.terminal && d.reason == NOT_TERMINAL
            && (d.state == INSUFFICIENT_EVIDENCE <==> !enough)
            && (d.state == EXPLORATORY_POSITIVE <==> enough && positive >= 0.80)
            && (d.state == EXPLORATORY_NEGATIVE <==> enough && positive < 0.80 && 1.0 - positive >= 0.80)
            && (d.state == EXPLORATORY_INCONCLUSIVE <==> enough && positive < 0.80 && 1.0 - positive < 0.80)
  {
    hide Select, Cohort, LeftOut, Total, Rows, Exposed, F.Material, CohortFor;
    ExposureConserves(CohortFor(stored, x, Baseline, head, now, ext), x.protocol.sleepThreshold);
  }

  /**
   * A prospective evaluation of sound rows whose cohort has reached the target and both group minima stores
   * support, weakening or neither as the sampling of the two prospective groups says; any other stores
   * EXPIRED_INCONCLUSIVE once the window is over and PROSPECTIVE_COLLECTING before that.
   */
  lemma ProspectiveFromRows(stored: seq<Row>, x: E.Experiment, head: nat, now: Time, ext: Externals, text: string)
    ensures var cohort := CohortFor(stored, x, Prospective, head, now, ext);
            var sufficient := Exposed(cohort, x.protocol.sleepThreshold, true);
            var below := Exposed(cohort, x.protocol.sleepThreshold, false);
            var state := E.DecisionFor(x, PROSPECTIVE_VALIDATION,
                                       Assess(stored, x, PROSPECTIVE_VALIDATION, head, now, ext, text), now).state;
            var over := now > x.protocol.prospectiveStart + x.protocol.maximumWindowDays * 86_400_000_000;
            var ready := && Sound(stored, x, head, ext) && |cohort| >= x.protocol.target
                         && |sufficient| >= 7 && |below| >= 7;
            var p := ext.sample(sufficient, below, x.protocol.meaningfulDifference).posterior;
            var supported := p.meaningful >= 0.95 && p.interval90Low > 0.0;
            && (state == PROSPECTIVE_SUPPORTED <==> ready && supported)
            && (state == PROSPECTIVE_WEAKENED <==> ready && !supported && 1.0 - p.positive >= 0.95)
            && (state == PROSPECTIVE_INCONCLUSIVE <==> ready && !supported && 1.0 - p.positive < 0.95)
            && (state == EXPIRED_INCONCLUSIVE <==> !ready && over)
            && (state == PROSPECTIVE_COLLECTING <==> !ready && !over)
  {
    hide Select, Cohort, LeftOut, Total, Rows, Exposed, F.Material, AnyContradict, CohortFor;
    CriticalExactly(Rows(stored, x, head), x.key, ext.parse);
    ExposureConserves(CohortFor(stored, x, Prospective, head, now, ext), x.protocol.sleepThreshold);
  }

  /**
   * An epistemic rebuild, which anchors the experiment one position later, changes no assessment: the two
   * positions are those of the activation and the registration, which no observation has.
   */
  lemma MovedAnchorKeepsAssessment(stored: seq<Row>, x: E.Experiment, y: E.Experiment, phase: EvidencePhase, head: nat,
                                   now: Time,
                                   ext: Externals, text: string)
    requires y == x.(anchor := y.anchor) && y.anchor.recordedAt == x.anchor.recordedAt
             && y.anchor.position == x.anchor.position + 1
    requires Scan.ByPosition(stored)
    requires forall r :: r in stored ==> r.position != x.anchor.position && r.position != y.anchor.position
    ensures Assess(stored, y, phase, head, now, ext, text) == Assess(stored, x, phase, head, now, ext, text)
  {
    hide Select, Cohort, LeftOut, Total, Exposed, F.Material, SampleOf, Classify, Rows;
    SameScan(stored, x, y, head);
    KeptIsStored(stored, x, head, ext);
    var kept, a := Select(Rows(stored, x, head), x.key, ext.parse).kept, AnchorsOf(x, head, now);
    assert AnchorsOf(y, head, now) == a.(activationPosition := a.activationPosition + 1);
    MovedAnchorKeepsCohorts(kept, a, Baseline);
    MovedAnchorKeepsCohorts(kept, a, Prospective);
  }

  /** What selection keeps stems from rows of the table. */
  lemma KeptIsStored(stored: seq<Row>, x: E.Experiment, head: nat, ext: Externals)
    requires Scan.ByPosition(stored)
    ensures forall o ::
              o in Select(Rows(stored, x, head), x.key, ext.parse).kept ==>
                exists r :: r in stored && r.position == o.position
  {
    hide Screen, TakeAll, Scan.ByPosition, Scan.Selects;
    var rows := Rows(stored, x, head);
    Scan.FilterOrdered(stored, Scan.LifeQuery(x.key.ownerId, x.key.applicationId));
    Scan.ScanMeans(Scan.Filter(stored, Scan.LifeQuery(x.key.ownerId, x.key.applicationId)), Some(head));
    SortSorts(rows);
    SameMembers(rows);
    KeptIsOrdered(Sorted(rows), x.key, ext.parse);
    forall o | o in Select(rows, x.key, ext.parse).kept ensures exists r :: r in stored && r.position == o.position {
      var r :| r in Sorted(rows) && Screen(r, x.key, ext.parse) == Admitted(o);
      ScreenKeepsPosition(r, x.key, ext.parse);
      assert r in stored && r.position == o.position;
    }
  }

  lemma SameScan(stored: seq<Row>, x: E.Experiment, y: E.Experiment, head: nat)
    requires x.key == y.key
    ensures Rows(stored, x, head) == Rows(stored, y, head)
  {}

  // ---- evaluated again ----------------------------------------------------------------------

  /** The same experiment evaluated again, over a table that only grew past the first cutoff, activation in the past. */
  ghost predicate Again(x: E.Experiment, early: seq<Row>, head: nat, now: Time, late: seq<Row>, head': nat,
                        now': Time)
  {
    && Scan.ByPosition(early) && Scan.ByPosition(late) && head <= head' && now <= now'
    && Scan.UpTo(early, Some(head)) == Scan.UpTo(late, Some(head))
    && x.protocol.baselineCutoff <= now && x.anchor.position <= head
  }

  lemma {:induction false} GroupsGrow(eligible: seq<Eligible>, n: nat, a: Anchors, b: Anchors, threshold: real,
                                      sufficient: bool)
    requires n <= |eligible| && EvaluatedLater(a, b)
    ensures |Exposed(Cohort(eligible[..n], a, Prospective), threshold,
                     sufficient)| <= |Exposed(Cohort(eligible, b, Prospective), threshold, sufficient)|
    decreases |eligible|, n
  {
    hide Place, EvaluatedLater;
    if |eligible| == 0 { return; }
    var last, init := eligible[|eligible| - 1], eligible[..|eligible| - 1];
    PlacementsFollow(last, a, b);
    ExposedMore(Cohort(init, b, Prospective), last, threshold, sufficient);
    if n == |eligible| {
      assert eligible[..n] == eligible && init[..n - 1] == init;
      ExposedMore(Cohort(init, a, Prospective), last, threshold, sufficient);
      GroupsGrow(init, n - 1, a, b, threshold, sufficient);
    } else {
      assert init[..n] == eligible[..n];
      GroupsGrow(init, n, a, b, threshold, sufficient);
    }
  }

  lemma ExposedMore(cohort: seq<Eligible>, o: Eligible, threshold: real, sufficient: bool)
    ensures |Exposed(cohort + [o], threshold, sufficient)| ==
            |Exposed(cohort, threshold, sufficient)| + if (o.sleep >= threshold) == sufficient then 1 else 0
  {
    assert (cohort + [o])[..|cohort|] == cohort;
  }

  /** The earlier kept rows are the start of the later ones. */
  lemma KeptAgain(x: E.Experiment, early: seq<Row>, head: nat, now: Time, late: seq<Row>, head': nat, now': Time,
                  ext: Externals)
    requires Again(x, early, head, now, late, head', now')
    ensures Select(Rows(early, x, head), x.key, ext.parse).kept <= Select(Rows(late, x, head'), x.key, ext.parse).kept
    ensures EvaluatedLater(AnchorsOf(x, head, now), AnchorsOf(x, head', now'))
    ensures forall r :: r in Rows(early, x, head) ==> r in Rows(late, x, head')
  {
    hide Scan.Scanned, Scan.UpTo, TakeAll, Sorted;
    Scan.ScanGrows(early, late, x.key, head, head');
    var rows, n := Rows(late, x, head'), |Rows(early, x, head)|;
    Scan.OrderedIsAscending(rows);
    AscendingPrefix(rows, n);
    AlreadySorted(rows);
    AlreadySorted(rows[..n]);
    TakingGrows(rows, n, x.key, ext.parse);
    assert rows[..n] == Rows(early, x, head);
  }

  lemma ReachedStays(x: E.Experiment, early: seq<Row>, head: nat, now: Time, late: seq<Row>, head': nat, now': Time,
                     ext: Externals)
    requires Again(x, early, head, now, late, head', now')
    ensures Reached(early, x, head, now, ext) ==> Reached(late, x, head', now', ext)
    ensures Sound(late, x, head', ext) ==> Sound(early, x, head, ext)
  {
    hide Again, Rows, Select, Cohort, Exposed, EvaluatedLater, Contradict;
    KeptAgain(x, early, head, now, late, head', now', ext);
    var first, all := Select(Rows(early, x, head), x.key, ext.parse).kept, Select(Rows(late, x, head'), x.key,
        ext.parse).kept;
    assert all[..|first|] == first;
    MoreProspective(all, |first|, AnchorsOf(x, head, now), AnchorsOf(x, head', now'));
    GroupsGrow(all, |first|, AnchorsOf(x, head, now), AnchorsOf(x, head', now'), x.protocol.sleepThreshold, true);
    GroupsGrow(all, |first|, AnchorsOf(x, head, now), AnchorsOf(x, head', now'), x.protocol.sleepThreshold, false);
  }

  /**
   * After a terminal prospective evaluation a later one over the grown table is terminal again, except
   * exactly when by then two admissible rows contradict each other and the window is still open.
   */
  lemma TerminalUntilContradiction(x: E.Experiment, early: seq<Row>, head: nat, now: Time, late: seq<Row>, head': nat,
                                   now': Time,
                                   ext: Externals, text: string, text': string)
    requires Again(x, early, head, now, late, head', now')
    requires E.DecisionFor(x, PROSPECTIVE_VALIDATION, Assess(early, x, PROSPECTIVE_VALIDATION, head, now, ext, text),
                           now).terminal
    ensures E.DecisionFor(x, PROSPECTIVE_VALIDATION, Assess(late, x, PROSPECTIVE_VALIDATION, head', now', ext, text'),
                          now').terminal
            <==> Sound(late, x, head', ext) || now' > E.Deadline(x)
  {
    hide Assess, E.DecisionFor, Reached, Sound;
    TerminalFromRows(early, x, head, now, ext, text);
    TerminalFromRows(late, x, head', now', ext, text');
    ReachedStays(x, early, head, now, late, head', now', ext);
    AgainIsLater(x, early, head, now, late, head', now');
  }

  lemma AgainIsLater(x: E.Experiment, early: seq<Row>, head: nat, now: Time, late: seq<Row>, head': nat, now': Time)
    requires Again(x, early, head, now, late, head', now')
    ensures now <= now'
  {}

  /**
   * For clean names two evaluations of one experiment and phase share a fingerprint exactly when they
   * have the same cutoff and the same set of source events.
   */
  lemma FingerprintRepeatsExactly(x: E.Experiment, phase: EvidencePhase, c: seq<Eligible>, head: nat, d: seq<Eligible>,
                                  head': nat, ext: Externals)
    requires F.Clean(FingerprintInputs(c, x, phase, head, ext)) && F.Clean(FingerprintInputs(d, x, phase, head', ext))
    ensures F.Material(FingerprintInputs(c, x, phase, head, ext))
            == F.Material(FingerprintInputs(d, x, phase, head', ext))
            <==> head == head' && F.SameSet(EventIds(c), EventIds(d))
  {
    hide F.Material, F.Clean, F.SameSet, EventIds;
    var i, j := FingerprintInputs(c, x, phase, head, ext), FingerprintInputs(d, x, phase, head', ext);
    if F.Material(i) == F.Material(j) { F.MaterialDetermines(i, j); }
    if head == head' && F.SameSet(EventIds(c), EventIds(d)) { F.OrderAndRepetitionIgnored(i, EventIds(d)); }
  }
}
