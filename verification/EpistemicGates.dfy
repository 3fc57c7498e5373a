/** Terminal gating: which evaluations leave an outcome and a learning record in the ledger. */
module EpistemicGates {
  import opened Common
  import opened Ledger
  import opened Evaluation
  import S = Submission
  import opened Epistemic
  import opened EpistemicRuns
  import opened EpistemicMirror
  import opened EpistemicTheorems

  predicate IsEvidence(e: EngineEvent) {
    e.material.eventType.EvidenceEvaluated? && e.material.payload.EvidencePayload?
  }

  predicate IsOutcome(e: EngineEvent) { e.material.eventType.OutcomeEvaluated? && e.material.payload.OutcomePayload? }

  predicate IsLearning(e: EngineEvent) { e.material.eventType.LearningRecorded? && e.material.payload.LearningPayload? }

  predicate IsTerminalEvidence(e: EngineEvent) { IsEvidence(e) && e.material.payload.terminal }

  /** The belief stored with the evidence. */
  predicate BeliefOf(b: EngineEvent, e: EngineEvent) {
    && (b.material.eventType.BeliefCreated? || b.material.eventType.BeliefUpdated?) && b.material.payload.BeliefPayload?
    && IsEvidence(e) && b.material.payload.evidenceId == e.material.payload.evidenceId
    && b.material.payload.hypothesisId == e.material.payload.hypothesisId
    && b.material.payload.beliefState == e.material.payload.beliefState
  }

  /** The outcome of the evidence, on the same hypothesis and experiment and with its state. */
  predicate OutcomeOf(o: EngineEvent, e: EngineEvent) {
    && IsOutcome(o) && IsEvidence(e) && o.material.payload.evidenceId == e.material.payload.evidenceId
    && o.material.payload.hypothesisId == e.material.payload.hypothesisId
    && o.material.payload.experimentId == e.material.payload.experimentId
    && o.material.payload.outcomeState == e.material.payload.beliefState
  }

  /** The learning drawn from the outcome, from its prior belief to the new one. */
  predicate LearningOf(l: EngineEvent, o: EngineEvent, b: EngineEvent) {
    && IsLearning(l) && IsOutcome(o) && b.material.payload.BeliefPayload?
    && l.material.payload.outcomeId == o.material.payload.outcomeId
    && l.material.payload.hypothesisId == o.material.payload.hypothesisId
    && l.material.payload.previousBeliefId == o.material.payload.priorBeliefId == b.material.payload.previousBeliefId
    && l.material.payload.newBeliefId == b.material.payload.beliefId
  }

  ghost predicate Concluded(log: seq<EngineEvent>, e: EngineEvent) {
    exists b, o, l :: b in log && o in log && l in log && BeliefOf(b, e) && OutcomeOf(o, e) && LearningOf(l, o, b)
  }

  ghost predicate HasTerminalEvidence(log: seq<EngineEvent>, o: EngineEvent) {
    exists e :: e in log && IsTerminalEvidence(e) && OutcomeOf(o, e)
  }

  ghost predicate HasOutcome(log: seq<EngineEvent>, l: EngineEvent) {
    exists o, b :: o in log && b in log && LearningOf(l, o, b)
  }

  /** Evidence and outcome ids are the ids of their aggregates. */
  predicate Identified(e: EngineEvent) {
    && (IsEvidence(e) ==> e.material.payload.evidenceId == e.material.aggregateId)
    && (IsOutcome(e) ==> e.material.payload.outcomeId == e.material.aggregateId)
  }

  predicate StateDecides(e: EngineEvent) {
    IsEvidence(e) ==>
      (e.material.payload.terminal <==>
       e.material.payload.phase.PROSPECTIVE_VALIDATION? && IsTerminalState(e.material.payload.beliefState))
  }

  predicate SameOutcomeEvidence(o: EngineEvent, q: EngineEvent) {
    IsOutcome(o) && IsOutcome(q) && o.material.payload.evidenceId == q.material.payload.evidenceId
  }

  predicate SameLearningOutcome(l: EngineEvent, m: EngineEvent) {
    IsLearning(l) && IsLearning(m) && l.material.payload.outcomeId == m.material.payload.outcomeId
  }

  /** One outcome and one learning per terminal evidence, linked to it and its belief; none otherwise. */
  ghost predicate Gated(log: seq<EngineEvent>) {
    && (forall e :: e in log ==> Identified(e) && StateDecides(e))
    && (forall e :: e in log && IsTerminalEvidence(e) ==> Concluded(log, e))
    && (forall o :: o in log && IsOutcome(o) ==> HasTerminalEvidence(log, o))
    && (forall l :: l in log && IsLearning(l) ==> HasOutcome(log, l))
    && (forall o, q :: o in log && q in log && SameOutcomeEvidence(o, q) ==> o == q)
    && (forall l, m :: l in log && m in log && SameLearningOutcome(l, m) ==> l == m)
  }

  // ---- growth -------------------------------------------------------------------------------

  lemma ConcludedStays(log: seq<EngineEvent>, more: seq<EngineEvent>, e: EngineEvent)
    requires forall x :: x in log ==> x in more
    ensures Concluded(log, e) ==> Concluded(more, e)
    ensures HasTerminalEvidence(log, e) ==> HasTerminalEvidence(more, e)
    ensures HasOutcome(log, e) ==> HasOutcome(more, e)
  {
    if Concluded(log, e) {
      var b, o, l :| b in log && o in log && l in log && BeliefOf(b, e) && OutcomeOf(o, e) && LearningOf(l, o, b);
      assert b in more && o in more && l in more;
    }
    if HasTerminalEvidence(log, e) {
      var v :| v in log && IsTerminalEvidence(v) && OutcomeOf(e, v);
      assert v in more;
    }
    if HasOutcome(log, e) {
      var o, b :| o in log && b in log && LearningOf(e, o, b);
      assert o in more && b in more;
    }
  }

  /** Events of other kinds leave the gates as they are. */
  lemma OthersKeepGates(log: seq<EngineEvent>, more: seq<EngineEvent>)
    requires Gated(log) && log <= more
    requires forall i :: |log| <= i < |more| ==> !IsEvidence(more[i]) && !IsOutcome(more[i]) && !IsLearning(more[i])
    ensures Gated(more)
  {
    hide Concluded, HasTerminalEvidence, HasOutcome, Identified, StateDecides;
    assert forall x :: x in log ==> x in more;
    forall x | x in more ensures x in log || (!IsEvidence(x) && !IsOutcome(x) && !IsLearning(x)) {
      var i :| 0 <= i < |more| && more[i] == x;
      if i < |log| { assert log[i] == x; }
    }
    forall x | x in more ensures Identified(x) && StateDecides(x) { OtherIsIdentified(x); }
    forall x | x in more
      ensures IsTerminalEvidence(x) ==> Concluded(more, x)
      ensures IsOutcome(x) ==> HasTerminalEvidence(more, x)
      ensures IsLearning(x) ==> HasOutcome(more, x)
    {
      ConcludedStays(log, more, x);
    }
  }

  lemma OtherIsIdentified(e: EngineEvent)
    ensures !IsEvidence(e) && !IsOutcome(e) ==> Identified(e) && StateDecides(e)
  {}

  /** The events of one evaluation close the gates behind themselves. */
  lemma EvaluationKeepsGates(before: Ledger, c: Case, after: Ledger)
    requires c.Valid() && Appended(before, c.Drafts(), after) && Gated(before.log)
    requires c.d.terminal <==> c.phase.PROSPECTIVE_VALIDATION? && IsTerminalState(c.d.state)
    requires forall e ::
               e in before.log ==>
                 e.material.aggregateId != c.ids.entities[0] && e.material.aggregateId != c.ids.entities[2]
    ensures Gated(after.log)
  {
    var n, log := |before.log|, after.log;
    DraftCount(c);
    assert IsDraft(log[n + 0], c.Drafts()[0], before.next + 0);
    assert IsDraft(log[n + 1], c.Drafts()[1], before.next + 1);
    if c.d.terminal {
      assert IsDraft(log[n + 2], c.Drafts()[2], before.next + 2);
      assert IsDraft(log[n + 3], c.Drafts()[3], before.next + 3);
      ConclusionKeepsGates(before.log, log, log[n], log[n + 1], log[n + 2], log[n + 3]);
    } else {
      InterimKeepsGates(before.log, log, log[n], log[n + 1]);
    }
  }

  lemma InterimKeepsGates(log: seq<EngineEvent>, more: seq<EngineEvent>, e: EngineEvent, b: EngineEvent)
    requires Gated(log) && log <= more && more == log + [e, b]
    requires IsEvidence(e) && !IsTerminalEvidence(e) && Identified(e) && StateDecides(e)
    requires !IsEvidence(b) && !IsOutcome(b) && !IsLearning(b)
    ensures Gated(more)
  {
    hide Concluded, HasTerminalEvidence, HasOutcome;
    assert forall x :: x in more <==> x in log || x == e || x == b;
    forall x | x in more
      ensures IsTerminalEvidence(x) ==> Concluded(more, x)
      ensures IsOutcome(x) ==> HasTerminalEvidence(more, x)
      ensures IsLearning(x) ==> HasOutcome(more, x)
    {
      ConcludedStays(log, more, x);
    }
  }

  lemma ConclusionKeepsGates(log: seq<EngineEvent>, more: seq<EngineEvent>, e: EngineEvent, b: EngineEvent,
                             o: EngineEvent, l: EngineEvent)
    requires Gated(log) && log <= more && more == log + [e, b, o, l]
    requires IsTerminalEvidence(e) && Identified(e) && StateDecides(e) && Identified(o) && BeliefOf(b, e)
             && OutcomeOf(o, e) && LearningOf(l, o, b)
    requires forall x :: x in log ==>
               && x.material.aggregateId != e.material.aggregateId
               && x.material.aggregateId != o.material.aggregateId
    ensures Gated(more)
  {
    hide *;
    KindsApart(e, b, o, l);
    MembersOf(log, e, b, o, l);
    Closes(more, e, b, o, l);
    forall x | x in more
      ensures IsTerminalEvidence(x) ==> Concluded(more, x)
      ensures IsOutcome(x) ==> HasTerminalEvidence(more, x)
      ensures IsLearning(x) ==> HasOutcome(more, x)
      ensures Identified(x) && StateDecides(x)
    {
      GatesAt(log, x);
      ConcludedStays(log, more, x);
    }
    forall p, q | p in more && q in more
      ensures SameOutcomeEvidence(p, q) ==> p == q
      ensures SameLearningOutcome(p, q) ==> p == q
    {
      UniqueAt(log, p, q);
      OnlyOutcomes(p, q);
      if p in log { NewEvidence(log, e, o, p); NewOutcome(log, o, b, l, p); OnlyOutcomes(o, p); OnlyOutcomes(l, p); }
      if q in log { NewEvidence(log, e, o, q); NewOutcome(log, o, b, l, q); OnlyOutcomes(o, q); OnlyOutcomes(l, q); }
    }
    GatedFrom(more);
  }

  lemma MembersOf(log: seq<EngineEvent>, e: EngineEvent, b: EngineEvent, o: EngineEvent, l: EngineEvent)
    ensures forall x :: x in log + [e, b, o, l] <==> x in log || x == e || x == b || x == o || x == l
  {}

  lemma KindsApart(e: EngineEvent, b: EngineEvent, o: EngineEvent, l: EngineEvent)
    requires IsTerminalEvidence(e) && Identified(o) && BeliefOf(b, e) && OutcomeOf(o, e) && LearningOf(l, o, b)
    ensures !IsOutcome(e) && !IsLearning(e) && !IsTerminalEvidence(b) && !IsOutcome(b) && !IsLearning(b)
    ensures IsOutcome(o) && !IsTerminalEvidence(o) && !IsLearning(o) && IsLearning(l) && !IsTerminalEvidence(l)
            && !IsOutcome(l)
    ensures Identified(b) && StateDecides(b) && StateDecides(o) && Identified(l) && StateDecides(l)
  {}

  lemma GatesAt(log: seq<EngineEvent>, x: EngineEvent)
    requires Gated(log)
    ensures x in log ==> && Identified(x) && StateDecides(x) && (IsTerminalEvidence(x) ==> Concluded(log, x))
                         && (IsOutcome(x) ==> HasTerminalEvidence(log, x)) && (IsLearning(x) ==> HasOutcome(log, x))
  {}

  lemma UniqueAt(log: seq<EngineEvent>, p: EngineEvent, q: EngineEvent)
    requires Gated(log)
    ensures p in log && q in log ==> (SameOutcomeEvidence(p, q) ==> p == q) && (SameLearningOutcome(p, q) ==> p == q)
  {}

  lemma OnlyOutcomes(p: EngineEvent, q: EngineEvent)
    ensures SameOutcomeEvidence(p, q) ==> IsOutcome(p) && IsOutcome(q)
    ensures SameLearningOutcome(p, q) ==> IsLearning(p) && IsLearning(q)
    ensures SameOutcomeEvidence(p, q) <==> SameOutcomeEvidence(q, p)
    ensures SameLearningOutcome(p, q) <==> SameLearningOutcome(q, p)
  {}

  lemma GatedFrom(log: seq<EngineEvent>)
    requires forall e ::
               e in log ==> && Identified(e) && StateDecides(e) && (IsTerminalEvidence(e) ==> Concluded(log, e))
                                      && (IsOutcome(e) ==> HasTerminalEvidence(log, e))
                                          && (IsLearning(e) ==> HasOutcome(log, e))
    requires forall o, q :: o in log && q in log && SameOutcomeEvidence(o, q) ==> o == q
    requires forall l, m :: l in log && m in log && SameLearningOutcome(l, m) ==> l == m
    ensures Gated(log)
  {
    hide Identified, StateDecides, IsTerminalEvidence, Concluded, IsOutcome, HasTerminalEvidence, IsLearning,
        HasOutcome, SameOutcomeEvidence, SameLearningOutcome;
  }

  lemma Closes(more: seq<EngineEvent>, e: EngineEvent, b: EngineEvent, o: EngineEvent, l: EngineEvent)
    requires e in more && b in more && o in more && l in more
    requires IsTerminalEvidence(e) && BeliefOf(b, e) && OutcomeOf(o, e) && LearningOf(l, o, b)
    ensures Concluded(more, e) && HasTerminalEvidence(more, o) && HasOutcome(more, l)
  {}

  lemma NewEvidence(log: seq<EngineEvent>, e: EngineEvent, o: EngineEvent, q: EngineEvent)
    requires Gated(log) && q in log && OutcomeOf(o, e) && Identified(e)
    requires forall x :: x in log ==> x.material.aggregateId != e.material.aggregateId
    ensures !SameOutcomeEvidence(o, q)
  {
    if IsOutcome(q) {
      assert HasTerminalEvidence(log, q);
      var v :| v in log && IsTerminalEvidence(v) && OutcomeOf(q, v);
      assert Identified(v);
    }
  }

  lemma NewOutcome(log: seq<EngineEvent>, o: EngineEvent, b: EngineEvent, l: EngineEvent, m: EngineEvent)
    requires Gated(log) && m in log && LearningOf(l, o, b) && Identified(o)
    requires forall x :: x in log ==> x.material.aggregateId != o.material.aggregateId
    ensures !SameLearningOutcome(l, m)
  {
    if IsLearning(m) {
      assert HasOutcome(log, m);
      var q, c :| q in log && c in log && LearningOf(m, q, c);
      assert Identified(q);
    }
  }

  // ---- every run ----------------------------------------------------------------------------

  predicate IsGateEvent(t: EventType) { t.EvidenceEvaluated? || t.OutcomeEvaluated? || t.LearningRecorded? }

  /** The log grew by the drafts. */
  ghost predicate Logged(before: Ledger, drafts: seq<Draft>, after: Ledger) {
    && |after.log| == |before.log| + |drafts| && before.log <= after.log
    && forall i :: 0 <= i < |drafts| ==> IsDraft(after.log[|before.log| + i], drafts[i], before.next + i)
  }

  /** What a step other than an evaluation appends. */
  lemma StepLogs(directory: string -> S.Auth, seen: State, s: State, step: Step, t: State) returns (drafts: seq<Draft>)
    requires Next(directory, seen, s, step, t) && !step.action.DoEvaluate?
    ensures Logged(s.ledger, drafts, t.ledger) && forall d :: d in drafts ==> !IsGateEvent(d.material.eventType)
  {
    hide FreshIds, Replay, S.AppendMany, LatestVersion, HasEventId, KeyTaken, WriteAll, ListsBeliefs;
    var ids, now := step.ids, step.now;
    HasIds(s, ids);
    drafts := [];
    if t == s { return; }
    match step.action
    case DoPropose(auth, proposed, confirmed) =>
      drafts := [DraftFor(auth, HypothesisProposed, "Hypothesis", ids.entities[0], 1,
                          ProposalPayload(ids.entities[0], proposed, confirmed),
                          ids.events[0], ids.auditId, ids.requestId, Some(ids.key), now)];
      AppendManyAppends(s.ledger, drafts);
    case DoActivate(auth, hypothesisId, p) =>
      drafts := ActivationDrafts(auth, NextVersion(seen, auth, "Hypothesis", hypothesisId), hypothesisId, p, ids, now);
      AppendManyAppends(s.ledger, drafts);
    case DoRetire(auth, hypothesisId, reason) =>
      drafts := [DraftFor(auth, HypothesisRetired, "Hypothesis", hypothesisId,
                          NextVersion(seen, auth, "Hypothesis", hypothesisId),
                          RetirementPayload(hypothesisId, reason), ids.events[0], ids.auditId, ids.requestId,
                              Some(ids.key), now)];
      AppendManyAppends(s.ledger, drafts);
    case DoRebuild(order) =>
      drafts := [RebuildDraft(s, ids, now)];
    case DoOther(others) =>
      drafts := others;
      AppendManyAppends(s.ledger, drafts);
      forall d | d in drafts ensures !IsGateEvent(d.material.eventType) { assert IsIgnored(d.material.eventType); }
    case SetHead(_, _, _) =>
    case SkipTo(_) =>
  }

  lemma HasIds(s: State, ids: Ids)
    requires FreshIds(s, ids)
    ensures |ids.entities| >= 4 && |ids.events| >= 4
    ensures forall e ::
              e in s.ledger.log ==>
                e.material.aggregateId != ids.entities[0] && e.material.aggregateId != ids.entities[2]
    ensures ids.entities[0] != ids.entities[2] && Unused(s.tables, ids.entities[0]) && Unused(s.tables, ids.entities[1])
            && Unused(s.tables, ids.entities[3])
  {}

  lemma LoggedKeepsGates(before: Ledger, drafts: seq<Draft>, after: Ledger)
    requires Gated(before.log) && Logged(before, drafts, after)
             && forall d :: d in drafts ==> !IsGateEvent(d.material.eventType)
    ensures Gated(after.log)
  {
    hide Gated;
    var n := |before.log|;
    forall i | n <= i < |after.log|
        ensures !IsEvidence(after.log[i]) && !IsOutcome(after.log[i]) && !IsLearning(after.log[i]) {
      assert IsDraft(after.log[n + (i - n)], drafts[i - n], before.next + (i - n));
      assert drafts[i - n] in drafts;
    }
    OthersKeepGates(before.log, after.log);
  }

  lemma EvaluateKeepsGates(seen: State, prior: Option<Belief>, s: State, auth: S.Auth, experimentId: string,
                           phase: EvidencePhase,
                            a: Assessment, ids: Ids, now: Time)
    requires Gated(s.ledger.log) && FreshIds(s, ids)
    ensures |ids.entities| >= 4 && |ids.events| >= 4
    ensures var r := Evaluate(seen, prior, s, auth, experimentId, phase, a, ids, now); r.Ok? ==>
              Gated(r.value.state.ledger.log)
  {
    hide Gated, FreshIds, Evaluate, EvaluationDrafts, TablesAfter;
    HasIds(s, ids);
    var r := Evaluate(seen, prior, s, auth, experimentId, phase, a, ids, now);
    ReplayedChangesNothing(seen, prior, s, auth, experimentId, phase, a, ids, now);
    if r.Ok? && !r.value.replayed {
      var h, c := CaseOf(seen, prior, s, auth, experimentId, phase, a, ids, now);
      EvaluationKeepsGates(s.ledger, c, r.value.state.ledger);
    }
  }

  lemma StepKeepsGates(directory: string -> S.Auth, seen: State, s: State, step: Step, t: State)
    requires Next(directory, seen, s, step, t) && Gated(s.ledger.log)
    ensures Gated(t.ledger.log)
  {
    hide Gated, FreshIds, Evaluate, ReadsCurrent, FindExperiment, Logged;
    match step.action
    case DoEvaluate(auth, experimentId, phase, a, prior) =>
      EvaluateKeepsGates(seen, prior, s, auth, experimentId, phase, a, step.ids, step.now);
    case _ =>
      hide *;
      var drafts := StepLogs(directory, seen, s, step, t);
      LoggedKeepsGates(s.ledger, drafts, t.ledger);
  }

  /**
   * In every run, whatever the classifier returns: recorded evidence is terminal exactly when its phase
   * is prospective and its state is one of the four terminal ones, and the ledger holds exactly one
   * outcome and one learning, linked to it and its belief, per terminal evidence and none otherwise.
   */
  lemma {:induction false} GatedThroughout(directory: string -> S.Auth, trace: seq<State>, steps: seq<Step>, i: nat)
    requires Run(directory, trace, steps) && i < |trace|
    ensures Gated(trace[i].ledger.log)
  {
    if i > 0 {
      hide Gated;
      GatedThroughout(directory, trace, steps, i - 1);
      StepKeepsGates(directory, trace[steps[i - 1].since], trace[i - 1], steps[i - 1], trace[i]);
    }
  }
}
