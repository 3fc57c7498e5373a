/** Two concrete histories that isolation alone would have to exclude: a double activation and an undone retirement. */
module EpistemicScenarios {
  import opened Common
  import opened Ledger
  import opened Evaluation
  import S = Submission
  import opened Epistemic
  import opened EpistemicRuns
  import opened EpistemicLifecycle
  import opened EpistemicRetirement

  // ---- a ledger known by what an append asks of it ------------------------------------------

  datatype Facts = Facts(versions: map<Aggregate, nat>, ids: set<string>, keys: set<Option<string>>)

  ghost predicate Holds(l: Ledger, k: StreamKey, f: Facts) {
    && (forall a :: LatestVersion(l.log, a) == if a in f.versions then f.versions[a] else 0)
    && (forall id :: HasEventId(l.log, id) <==> id in f.ids)
    && (forall key :: KeyTaken(l.log, k.applicationId, key) <==> key in f.keys)
    && HeadOf(l, k).status == StreamStatus.ACTIVE
  }

  predicate Admits(f: Facts, k: StreamKey, d: Draft) {
    var a := d.material.AggregateRef();
    && d.material.Key() == k && PayloadFits(d.material.eventType, d.material.payload)
    && d.material.aggregateVersion == (if a in f.versions then f.versions[a] else 0) + 1
    && d.material.eventId !in f.ids && d.idempotencyKey !in f.keys && d.idempotencyKey != Some("")
  }

  function After(f: Facts, d: Draft): Facts {
    Facts(f.versions[d.material.AggregateRef() := d.material.aggregateVersion], f.ids + {d.material.eventId},
          if d.idempotencyKey.Some? then f.keys + {d.idempotencyKey} else f.keys)
  }

  lemma AppendAdmitted(l: Ledger, k: StreamKey, f: Facts, d: Draft)
    requires Holds(l, k, f) && Admits(f, k, d)
    ensures AppendOne(l, d).Ok? && Holds(AppendOne(l, d).value, k, After(f, d))
  {
    assert !HasEventId(l.log, d.material.eventId) && !KeyTaken(l.log, k.applicationId, d.idempotencyKey);
    var after := AppendOne(l, d).value;
    var e := Persist(l, d);
    assert after.log[..|l.log|] == l.log;
    forall a ensures LatestVersion(after.log, a) == if a in After(f, d).versions then After(f, d).versions[a] else 0 {}
    forall id ensures HasEventId(after.log, id) <==> id in After(f, d).ids { EventIdsGrow(l.log, e, id); }
    forall key ensures KeyTaken(after.log, k.applicationId, key) <==> key in After(f, d).keys {
      KeysGrow(l.log, e, k.applicationId, key);
    }
  }

  lemma EventIdsGrow(log: seq<EngineEvent>, e: EngineEvent, id: string)
    ensures HasEventId(log + [e], id) <==> HasEventId(log, id) || e.material.eventId == id
  {
    if HasEventId(log, id) {
      var i :| 0 <= i < |log| && log[i].material.eventId == id;
      assert (log + [e])[i].material.eventId == id;
    }
    if e.material.eventId == id { assert (log + [e])[|log|].material.eventId == id; }
  }

  lemma KeysGrow(log: seq<EngineEvent>, e: EngineEvent, application: string, key: Option<string>)
    ensures KeyTaken(log + [e], application, key) <==>
            KeyTaken(log, application, key) ||
            (key.Some? && key.value != "" && e.idempotencyKey == key && e.material.applicationId == application)
  {
    var more := log + [e];
    assert more[|log|] == e && forall i :: 0 <= i < |log| ==> more[i] == log[i];
  }

  lemma {:induction false} AppendsAdmitted(l: Ledger, k: StreamKey, f: Facts, init: seq<Draft>, d: Draft, mid: Ledger,
                                           g: Facts)
    requires S.AppendMany(l, init) == Ok(mid) && Holds(mid, k, g) && Admits(g, k, d)
    ensures S.AppendMany(l, init + [d]).Ok? && Holds(S.AppendMany(l, init + [d]).value, k, After(g, d))
  {
    assert (init + [d])[..|init|] == init;
    AppendAdmitted(mid, k, g, d);
  }

  lemma OneAdmitted(l: Ledger, k: StreamKey, f: Facts, a: Draft)
    requires Holds(l, k, f) && Admits(f, k, a)
    ensures S.AppendMany(l, [a]).Ok? && Holds(S.AppendMany(l, [a]).value, k, After(f, a))
  {
    assert [] + [a] == [a];
    AppendsAdmitted(l, k, f, [], a, l, f);
  }

  lemma TwoAdmitted(l: Ledger, k: StreamKey, f: Facts, a: Draft, b: Draft)
    requires Holds(l, k, f) && Admits(f, k, a) && Admits(After(f, a), k, b)
    ensures S.AppendMany(l, [a, b]).Ok? && Holds(S.AppendMany(l, [a, b]).value, k, After(After(f, a), b))
  {
    hide Holds, Admits, After;
    OneAdmitted(l, k, f, a);
    assert [a] + [b] == [a, b];
    AppendsAdmitted(l, k, f, [a], b, S.AppendMany(l, [a]).value, After(f, a));
  }

  lemma ThreeAdmitted(l: Ledger, k: StreamKey, f: Facts, a: Draft, b: Draft, c: Draft)
    requires Holds(l, k, f) && Admits(f, k, a) && Admits(After(f, a), k, b) && Admits(After(After(f, a), b), k, c)
    ensures S.AppendMany(l, [a, b, c]).Ok?
            && Holds(S.AppendMany(l, [a, b, c]).value, k, After(After(After(f, a), b), c))
  {
    hide Holds, Admits, After;
    TwoAdmitted(l, k, f, a, b);
    assert [a, b] + [c] == [a, b, c];
    AppendsAdmitted(l, k, f, [a, b], c, S.AppendMany(l, [a, b]).value, After(After(f, a), b));
  }

  // ---- the cast -----------------------------------------------------------------------------

  const CALLER := S.Auth("tenant", "owner", "app")
  const KEY := StreamKey("tenant", "owner", "app")
  const PARAMETERS := Parameters(7.0, 1.0, 14, 30)

  function Directory(application: string): S.Auth { S.Auth("tenant", "owner", application) }

  const PROPOSAL_IDS := Ids("aud1", "req1", "key1", ["hyp", "p2", "p3", "p4"], ["evt1", "p5", "p6", "p7"])
  const FIRST_IDS := Ids("aud2", "req2", "key2", ["exp1", "q2", "q3", "q4"], ["evt2", "evt3", "evt4", "q5"])
  const SECOND_IDS := Ids("aud3", "req3", "key3", ["exp2", "r2", "r3", "r4"], ["evt5", "evt6", "evt7", "r5"])

  const START := State(EMPTY, NO_ROWS)
  const PROPOSED_FACTS := Facts(map[HypothesisAggregate(KEY, "hyp") := 1], {"evt1"}, {Some("key1")})
  const ACTIVE_FACTS := Facts(map[HypothesisAggregate(KEY, "hyp") := 2, Aggregate(KEY, "Experiment", "exp1") := 2],
                              {"evt1", "evt2", "evt3", "evt4"}, {Some("key1"), Some("key2")})

  const NOTHING := Facts(map[], {}, {})

  lemma NothingHolds()
    ensures Holds(EMPTY, KEY, NOTHING)
  {}

  function ProposalDraft(): Draft {
    DraftFor(CALLER, HypothesisProposed, "Hypothesis", "hyp", 1, ProposalPayload("hyp", None, false), "evt1", "aud1",
             "req1", Some("key1"), 0)
  }

  function AfterProposal(): Result<State, EpistemicError> { Propose(START, CALLER, None, false, PROPOSAL_IDS, 0) }

  lemma ProposalCommits() returns (s: State)
    ensures AfterProposal() == Ok(s) && Holds(s.ledger, KEY, PROPOSED_FACTS)
            && S.AppendMany(EMPTY, [ProposalDraft()]) == Ok(s.ledger)
    ensures s.tables == NO_ROWS.(hypotheses := map["hyp" :=
              Hypothesis("hyp", KEY, PROPOSED, false, None, 0, None, None, None, "aud1", "evt1", 1, 0)])
  {
    hide Holds, S.AppendMany, AppendOne;
    NothingHolds();
    assert Admits(NOTHING, KEY, ProposalDraft()) && After(NOTHING, ProposalDraft()) == PROPOSED_FACTS;
    OneAdmitted(EMPTY, KEY, NOTHING, ProposalDraft());
    s := AfterProposal().value;
  }

  // ---- one activation, and one more ---------------------------------------------------------

  const PROPOSED_ROW := Hypothesis("hyp", KEY, PROPOSED, false, None, 0, None, None, None, "aud1", "evt1", 1, 0)

  lemma ActivationAdmitted(l: Ledger, f: Facts, version: nat, ids: Ids, now: Time) returns (g: Facts)
    requires Holds(l, KEY, f) && |ids.entities| >= 1 && |ids.events| >= 3
    requires version
             == (if HypothesisAggregate(KEY, "hyp") in f.versions then f.versions[HypothesisAggregate(KEY, "hyp")]
                 else 0) + 1
    requires Aggregate(KEY, "Experiment", ids.entities[0]) !in f.versions
    requires ids.events[0] !in f.ids && ids.events[1] !in f.ids && ids.events[2] !in f.ids
    requires ids.events[0] != ids.events[1] && ids.events[0] != ids.events[2] && ids.events[1] != ids.events[2]
    requires Some(ids.key) !in f.keys && ids.key != "" && None !in f.keys
    ensures var drafts := ActivationDrafts(CALLER, version, "hyp", PARAMETERS, ids, now);
            S.AppendMany(l, drafts).Ok? && Holds(S.AppendMany(l, drafts).value, KEY, g)
    ensures g == Facts(f.versions[HypothesisAggregate(KEY, "hyp") := version][Aggregate(KEY, "Experiment",
                ids.entities[0]) := 2],
                       f.ids + {ids.events[0], ids.events[1], ids.events[2]}, f.keys + {Some(ids.key)})
  {
    hide Holds, S.AppendMany, LatestVersion, HasEventId, KeyTaken;
    var drafts := ActivationDrafts(CALLER, version, "hyp", PARAMETERS, ids, now);
    var a, b, c := drafts[0], drafts[1], drafts[2];
    assert Admits(f, KEY, a);
    assert Admits(After(f, a), KEY, b);
    assert Admits(After(After(f, a), b), KEY, c);
    ThreeAdmitted(l, KEY, f, a, b, c);
    assert drafts == [a, b, c];
    g := After(After(After(f, a), b), c);
  }

  lemma FirstActivation(s1: State) returns (s2: State)
    requires Holds(s1.ledger, KEY, PROPOSED_FACTS) && s1.tables == NO_ROWS.(hypotheses := map["hyp" := PROPOSED_ROW])
    ensures Activate(s1, 2, s1, CALLER, "hyp", PARAMETERS, FIRST_IDS, 10) == Ok(s2)
    ensures S.AppendMany(s1.ledger, ActivationDrafts(CALLER, 2, "hyp", PARAMETERS, FIRST_IDS, 10)) == Ok(s2.ledger)
    ensures Holds(s2.ledger, KEY, ACTIVE_FACTS)
    ensures s2.tables.hypotheses.Keys == {"hyp"} && s2.tables.hypotheses["hyp"].status == HypothesisStatus.ACTIVE
    ensures s2.tables.hypotheses["hyp"].key == KEY && s2.tables.hypotheses["hyp"].id == "hyp"
    ensures s2.tables.experiments.Keys == {"exp1"} && s2.tables.evidence == map[] && s2.tables.beliefs == map[]
            && s2.tables.learning == map[]
    ensures var x := s2.tables.experiments["exp1"]; x.id == "exp1" && x.hypothesisId == "hyp" && x.key == KEY
  {
    hide Holds, S.AppendMany, ActivationDrafts;
    var g := ActivationAdmitted(s1.ledger, PROPOSED_FACTS, 2, FIRST_IDS, 10);
    assert g == ACTIVE_FACTS;
    s2 := Activate(s1, 2, s1, CALLER, "hyp", PARAMETERS, FIRST_IDS, 10).value;
  }

  /**
   * If the status is read before another activation commits and the version after, both activations
   * commit: the hypothesis has two activation events and two experiments.
   */
  lemma SplitReadsActivateTwice() returns (before: State, first: State, second: State)
    ensures AfterProposal() == Ok(before)
    ensures Activate(before, NextVersion(before, CALLER, "Hypothesis", "hyp"), before, CALLER, "hyp", PARAMETERS,
                     FIRST_IDS, 10) == Ok(first)
    ensures Activate(before, NextVersion(first, CALLER, "Hypothesis", "hyp"), first, CALLER, "hyp", PARAMETERS,
                     SECOND_IDS, 20) == Ok(second)
    ensures second.tables.experiments.Keys == {"exp1", "exp2"}
    ensures second.tables.experiments["exp1"].hypothesisId == second.tables.experiments["exp2"].hypothesisId == "hyp"
    ensures |second.ledger.log| == 7 && IsActivation(second.ledger.log[1]) && IsActivation(second.ledger.log[4])
  {
    hide Holds, S.AppendMany, ActivationDrafts;
    before := ProposalCommits();
    VersionsFrom(before, PROPOSED_FACTS);
    first := FirstActivation(before);
    VersionsFrom(first, ACTIVE_FACTS);
    var g := ActivationAdmitted(first.ledger, ACTIVE_FACTS, 3, SECOND_IDS, 20);
    second := Activate(before, 3, first, CALLER, "hyp", PARAMETERS, SECOND_IDS, 20).value;
    AppendManyAppends(EMPTY, [ProposalDraft()]);
    ActivationLogged(before.ledger, 2, FIRST_IDS, 10, first.ledger);
    ActivationLogged(first.ledger, 3, SECOND_IDS, 20, second.ledger);
    assert second.ledger.log[1] == first.ledger.log[1];
  }

  lemma VersionsFrom(s: State, f: Facts)
    requires Holds(s.ledger, KEY, f) && HypothesisAggregate(KEY, "hyp") in f.versions
    ensures NextVersion(s, CALLER, "Hypothesis", "hyp") == f.versions[HypothesisAggregate(KEY, "hyp")] + 1
  {}

  lemma ActivationLogged(before: Ledger, version: nat, ids: Ids, now: Time, after: Ledger)
    requires |ids.entities| >= 1 && |ids.events| >= 3
    requires S.AppendMany(before, ActivationDrafts(CALLER, version, "hyp", PARAMETERS, ids, now)) == Ok(after)
    ensures |after.log| == |before.log| + 3 && before.log <= after.log && IsActivation(after.log[|before.log|])
  {
    hide S.AppendMany;
    var drafts := ActivationDrafts(CALLER, version, "hyp", PARAMETERS, ids, now);
    AppendManyAppends(before, drafts);
    assert IsDraft(after.log[|before.log| + 0], drafts[0], before.next + 0);
  }

  // ---- a retirement undone ------------------------------------------------------------------

  const RETIREMENT_IDS := Ids("aud4", "req4", "key4", ["t1", "t2", "t3", "t4"], ["evt8", "u2", "u3", "u4"])
  const EVALUATION_IDS := Ids("aud5", "req5", "key5", ["evi1", "bel1", "out1", "lrn1"],
                              ["evt9", "evt10", "evt11", "evt12"])
  const ASSESSMENT := Assessment(0, 0, Counts(0, 0, 0), Counts(0, 0, 0), false, "print", INSUFFICIENT_EVIDENCE,
                                 Estimate(0.5, 0.0, 0.0, 0.0, 1.0), "")
  const RETIRED_FACTS := Facts(ACTIVE_FACTS.versions[HypothesisAggregate(KEY, "hyp") := 3], ACTIVE_FACTS.ids + {"evt8"},
                               ACTIVE_FACTS.keys + {Some("key4")})

  /** Only the given aggregates occur in the log. */
  ghost predicate About(log: seq<EngineEvent>, ids: set<string>) {
    forall e :: e in log ==> e.material.aggregateId in ids
  }

  lemma AboutMore(before: Ledger, drafts: seq<Draft>, after: Ledger, ids: set<string>)
    requires About(before.log, ids) && Appended(before, drafts, after)
    requires forall i :: 0 <= i < |drafts| ==> drafts[i].material.aggregateId in ids
    ensures About(after.log, ids)
  {
    forall e | e in after.log ensures e.material.aggregateId in ids {
      var i :| 0 <= i < |after.log| && after.log[i] == e;
      if i < |before.log| {
        assert before.log[i] in before.log;
      } else {
        assert IsDraft(after.log[|before.log| + (i - |before.log|)], drafts[i - |before.log|],
                       before.next + (i - |before.log|));
      }
    }
  }

  lemma FreshFrom(s: State, names: set<string>, ids: Ids)
    requires About(s.ledger.log, names) && |ids.entities| >= 4 && |ids.events| >= 4
    requires forall i :: 0 <= i < |ids.entities| ==> ids.entities[i] !in names && Unused(s.tables, ids.entities[i])
    requires forall i, j :: 0 <= i < j < |ids.entities| ==> ids.entities[i] != ids.entities[j]
    ensures FreshIds(s, ids)
  {}

  lemma RetirementCommits(s2: State) returns (s3: State)
    requires Holds(s2.ledger, KEY, ACTIVE_FACTS) && "hyp" in s2.tables.hypotheses
             && s2.tables.hypotheses["hyp"].key == KEY
    requires s2.tables.hypotheses["hyp"].status == HypothesisStatus.ACTIVE
    ensures Retire(s2, 3, s2, CALLER, "hyp", "no longer of interest", RETIREMENT_IDS, 20) == Ok(s3)
    ensures S.AppendMany(s2.ledger, [RetirementDraft()]) == Ok(s3.ledger) && Holds(s3.ledger, KEY, RETIRED_FACTS)
    ensures s3.tables == s2.tables.(hypotheses := s3.tables.hypotheses)
            && s3.tables.hypotheses.Keys == s2.tables.hypotheses.Keys
    ensures s3.tables.hypotheses["hyp"].status == RETIRED
  {
    hide Holds, S.AppendMany;
    assert Admits(ACTIVE_FACTS, KEY, RetirementDraft()) && After(ACTIVE_FACTS, RetirementDraft()) == RETIRED_FACTS;
    OneAdmitted(s2.ledger, KEY, ACTIVE_FACTS, RetirementDraft());
    s3 := Retire(s2, 3, s2, CALLER, "hyp", "no longer of interest", RETIREMENT_IDS, 20).value;
  }

  function RetirementDraft(): Draft {
    DraftFor(CALLER, HypothesisRetired, "Hypothesis", "hyp", 3, RetirementPayload("hyp", "no longer of interest"),
             "evt8", "aud4", "req4", Some("key4"), 20)
  }

  function BaselineDrafts(x: Experiment): seq<Draft> {
    EvaluationDrafts(x, CALLER, BASELINE_EXPLORATORY, ASSESSMENT, DecisionFor(x, BASELINE_EXPLORATORY, ASSESSMENT, 30),
                     None, EVALUATION_IDS, 30)
  }

  lemma BaselineAdmitted(l: Ledger, x: Experiment)
    requires Holds(l, KEY, RETIRED_FACTS) && x.id == "exp1" && x.hypothesisId == "hyp"
    ensures S.AppendMany(l, BaselineDrafts(x)).Ok?
  {
    hide Holds, S.AppendMany;
    var drafts := BaselineDrafts(x);
    var a, b := drafts[0], drafts[1];
    assert Admits(RETIRED_FACTS, KEY, a);
    assert Admits(After(RETIRED_FACTS, a), KEY, b);
    TwoAdmitted(l, KEY, RETIRED_FACTS, a, b);
    assert drafts == [a, b];
  }

  lemma StaleEvaluationCommits(s2: State, s3: State) returns (s4: State)
    requires Holds(s3.ledger, KEY, RETIRED_FACTS) && s2.tables.evidence == s3.tables.evidence == map[]
    requires "hyp" in s2.tables.hypotheses && s2.tables.hypotheses["hyp"].key == KEY
             && s2.tables.hypotheses["hyp"].id == "hyp"
    requires s2.tables.hypotheses["hyp"].status == HypothesisStatus.ACTIVE
    requires "exp1" in s2.tables.experiments
    requires var x := s2.tables.experiments["exp1"]; x.id == "exp1" && x.hypothesisId == "hyp" && x.key == KEY
    ensures var r := Evaluate(s2, None, s3, CALLER, "exp1", BASELINE_EXPLORATORY, ASSESSMENT, EVALUATION_IDS, 30);
            r.Ok? && r.value.state == s4
    ensures "hyp" in s4.tables.hypotheses && s4.tables.hypotheses["hyp"].status == OBSERVING
  {
    hide Holds, S.AppendMany, UpsertBelief, AppendLearning, EvaluationDrafts, EvidenceRow, BeliefRow;
    BaselineAdmitted(s3.ledger, s2.tables.experiments["exp1"]);
    assert !FingerprintTaken(s2.tables, CALLER, "exp1", BASELINE_EXPLORATORY, "print");
    assert !FingerprintTaken(s3.tables, CALLER, "exp1", BASELINE_EXPLORATORY, "print");
    s4 := Evaluate(s2, None, s3, CALLER, "exp1", BASELINE_EXPLORATORY, ASSESSMENT, EVALUATION_IDS, 30).value.state;
  }

  const HISTORY := [
    Step(0, DoPropose(CALLER, None, false), PROPOSAL_IDS, 0),
    Step(1, DoActivate(CALLER, "hyp", PARAMETERS), FIRST_IDS, 10),
    Step(2, DoRetire(CALLER, "hyp", "no longer of interest"), RETIREMENT_IDS, 20),
    Step(2, DoEvaluate(CALLER, "exp1", BASELINE_EXPLORATORY, ASSESSMENT, None), EVALUATION_IDS, 30)]

  /**
   * A run in which an evaluation that read before the retirement commits after it: the hypothesis is
   * observing again.
   */
  lemma RetirementCanBeUndone() returns (trace: seq<State>)
    ensures Run(Directory, trace, HISTORY)
    ensures IsRetired(trace[3].tables.hypotheses, "hyp") && !IsRetired(trace[4].tables.hypotheses, "hyp")
    ensures "hyp" in trace[4].tables.hypotheses && trace[4].tables.hypotheses["hyp"].status == OBSERVING
  {
    hide Holds, S.AppendMany, ActivationDrafts, FreshIds, Propose, Activate, Retire, Evaluate, FindExperiment;
    var s1 := ProposalCommits();
    VersionsFrom(s1, PROPOSED_FACTS);
    var s2 := FirstActivation(s1);
    VersionsFrom(s2, ACTIVE_FACTS);
    var s3 := RetirementCommits(s2);
    var s4 := StaleEvaluationCommits(s2, s3);
    trace := [START, s1, s2, s3, s4];
    HistoryIsFresh(s1, s2, s3);
    assert ReadsCurrent(s2.tables.beliefs, CALLER, "hyp", None);
    assert Next(Directory, trace[0], trace[0], HISTORY[0], trace[1]);
    assert Next(Directory, trace[1], trace[1], HISTORY[1], trace[2]);
    assert Next(Directory, trace[2], trace[2], HISTORY[2], trace[3]);
    assert Next(Directory, trace[2], trace[3], HISTORY[3], trace[4]);
  }

  lemma HistoryIsFresh(s1: State, s2: State, s3: State)
    requires S.AppendMany(EMPTY, [ProposalDraft()]) == Ok(s1.ledger)
    requires S.AppendMany(s1.ledger, ActivationDrafts(CALLER, 2, "hyp", PARAMETERS, FIRST_IDS, 10)) == Ok(s2.ledger)
    requires S.AppendMany(s2.ledger, [RetirementDraft()]) == Ok(s3.ledger)
    requires s1.tables.hypotheses.Keys == {"hyp"} && s1.tables == NO_ROWS.(hypotheses := s1.tables.hypotheses)
    requires s2.tables.hypotheses.Keys == {"hyp"} && s2.tables.experiments.Keys == {"exp1"}
    requires s2.tables.evidence == map[] && s2.tables.beliefs == map[] && s2.tables.learning == map[]
    requires s3.tables == s2.tables.(hypotheses := s3.tables.hypotheses) && s3.tables.hypotheses.Keys == {"hyp"}
    ensures FreshIds(START, PROPOSAL_IDS) && FreshIds(s1, FIRST_IDS) && FreshIds(s2, RETIREMENT_IDS)
            && FreshIds(s3, EVALUATION_IDS)
  {
    hide S.AppendMany, About, FreshIds;
    var drafts := ActivationDrafts(CALLER, 2, "hyp", PARAMETERS, FIRST_IDS, 10);
    AppendManyAppends(EMPTY, [ProposalDraft()]);
    AppendManyAppends(s1.ledger, drafts);
    AppendManyAppends(s2.ledger, [RetirementDraft()]);
    EmptyAbout({"hyp"});
    EmptyAbout({"hyp", "exp1"});
    EmptyAbout({});
    AboutMore(EMPTY, [ProposalDraft()], s1.ledger, {"hyp"});
    AboutMore(EMPTY, [ProposalDraft()], s1.ledger, {"hyp", "exp1"});
    AboutMore(s1.ledger, drafts, s2.ledger, {"hyp", "exp1"});
    AboutMore(s2.ledger, [RetirementDraft()], s3.ledger, {"hyp", "exp1"});
    FreshFrom(START, {}, PROPOSAL_IDS);
    FreshFrom(s1, {"hyp"}, FIRST_IDS);
    FreshFrom(s2, {"hyp", "exp1"}, RETIREMENT_IDS);
    FreshFrom(s3, {"hyp", "exp1"}, EVALUATION_IDS);
  }

  lemma EmptyAbout(ids: set<string>)
    ensures About(EMPTY.log, ids)
  {}
}
