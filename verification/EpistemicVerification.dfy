/** Verification of the epistemic read model: exactly when comparing live rows with a replay finds them the same. */
module EpistemicVerification {
  import opened Common
  import opened Ledger
  import S = Submission
  import opened Epistemic
  import opened EpistemicRuns
  import opened EpistemicMirror
  import opened EpistemicTheorems
  import opened EpistemicGates
  import opened EpistemicLifecycle
  import opened EpistemicHistory
  import opened EpistemicRetirement

  // ---- verification of the epistemic read model ---------------------------------------------

  /** What comparing the checksums of live and replayed rows says: they cover every column of all six tables. */
  predicate Matches(s: State) { s.tables == Replay(s.ledger.log) }

  /** Replay keeps the experiment rows it has, but for status and time. */
  lemma ReplayedAnchorsStay(before: Ledger, drafts: seq<Draft>, after: Ledger, n: nat, id: string)
    requires Appended(before, drafts, after) && n <= |drafts| && id in Replay(before.log).experiments
    requires forall d ::
               d in drafts && d.material.payload.RegistrationPayload? ==> d.material.payload.experimentId != id
    ensures id in Replay(after.log[..|before.log| + n]).experiments
    ensures Replay(after.log[..|before.log| + n]).experiments[id].anchor == Replay(before.log).experiments[id].anchor
  {
    hide Replay, Apply;
    if n == 0 {
      assert after.log[..|before.log|] == before.log;
    } else {
      ReplayedAnchorsStay(before, drafts, after, n - 1, id);
      ReplayNext(after.log, |before.log| + n - 1);
      assert IsDraft(after.log[|before.log| + (n - 1)], drafts[n - 1], before.next + (n - 1));
      assert drafts[n - 1] in drafts;
      AnchorKept(Replay(after.log[..|before.log| + n - 1]), after.log[|before.log| + n - 1], id);
    }
  }

  lemma AnchorKept(t: Tables, e: EngineEvent, id: string)
    requires id in t.experiments && (e.material.payload.RegistrationPayload? ==> e.material.payload.experimentId != id)
    ensures id in Apply(t, e).experiments && Apply(t, e).experiments[id].anchor == t.experiments[id].anchor
  {
    hide OnProposed, OnActivated, OnRetired, OnRegistered, WithStatus, OnEvidence, OnBelief, OnLearning;
    OtherTables(t, e);
    ExperimentTables(t, e, id);
    forall x, status, state, at ensures id in WithStatus(t, x, status, state, at).experiments
                                        && WithStatus(t, x, status, state, at).experiments[id].anchor
                                           == t.experiments[id].anchor
    {
      StatusKeepsAnchor(t, x, status, state, at, id);
    }
  }

  lemma OtherTables(t: Tables, e: EngineEvent)
    ensures e.material.payload.ProposalPayload? ==> OnProposed(t, e).experiments == t.experiments
    ensures e.material.payload.ActivationPayload? ==> OnActivated(t, e).experiments == t.experiments
    ensures e.material.payload.RetirementPayload? ==> OnRetired(t, e).experiments == t.experiments
    ensures e.material.payload.EvidencePayload? ==> OnEvidence(t, e).experiments == t.experiments
    ensures e.material.payload.BeliefPayload? ==> OnBelief(t, e).experiments == t.experiments
    ensures e.material.payload.LearningPayload? ==> OnLearning(t, e).experiments == t.experiments
  {}

  lemma ExperimentTables(t: Tables, e: EngineEvent, id: string)
    requires id in t.experiments && (e.material.payload.RegistrationPayload? ==> e.material.payload.experimentId != id)
    ensures e.material.payload.RegistrationPayload? ==>
              id in OnRegistered(t, e).experiments && OnRegistered(t, e).experiments[id] == t.experiments[id]
  {}

  lemma StatusKeepsAnchor(t: Tables, x: string, status: string, state: Option<StateText>, at: Time, id: string)
    requires id in t.experiments
    ensures id in WithStatus(t, x, status, state, at).experiments
    ensures WithStatus(t, x, status, state, at).experiments[id].anchor == t.experiments[id].anchor
  {}

  /** What a step appends never registers an experiment already known. */
  lemma StepKeepsReplayAnchor(directory: string -> S.Auth, seen: State, s: State, step: Step, t: State, id: string)
    requires Next(directory, seen, s, step, t) && Mirror(directory, s) && id in s.tables.experiments
    ensures id in Replay(s.ledger.log).experiments && id in Replay(t.ledger.log).experiments
    ensures Replay(t.ledger.log).experiments[id].anchor == Replay(s.ledger.log).experiments[id].anchor
  {
    hide Mirror, Replay, S.AppendMany, ReadsCurrent, ListsBeliefs, FreshIds, Evaluate, EvaluationDrafts,
        ActivationDrafts;
    var ids, now := step.ids, step.now;
    AnchorStart(directory, s, ids, id);
    if t.ledger.log == s.ledger.log { return; }
    match step.action
    case DoPropose(auth, proposed, confirmed) =>
      var drafts := [DraftFor(auth, HypothesisProposed, "Hypothesis", ids.entities[0], 1,
                              ProposalPayload(ids.entities[0], proposed, confirmed),
                              ids.events[0], ids.auditId, ids.requestId, Some(ids.key), now)];
      AppendManyAppends(s.ledger, drafts);
      DraftsKeepAnchor(s.ledger, drafts, t.ledger, id);
    case DoActivate(auth, hypothesisId, p) =>
      var drafts := ActivationDrafts(auth, NextVersion(seen, auth, "Hypothesis", hypothesisId), hypothesisId, p, ids,
                                     now);
      AppendManyAppends(s.ledger, drafts);
      ActivationRegisters(auth, NextVersion(seen, auth, "Hypothesis", hypothesisId), hypothesisId, p, ids, now);
      DraftsKeepAnchor(s.ledger, drafts, t.ledger, id);
    case DoRetire(auth, hypothesisId, reason) =>
      var drafts := [DraftFor(auth, HypothesisRetired, "Hypothesis", hypothesisId,
                              NextVersion(seen, auth, "Hypothesis", hypothesisId),
                              RetirementPayload(hypothesisId, reason), ids.events[0], ids.auditId, ids.requestId,
                                  Some(ids.key), now)];
      AppendManyAppends(s.ledger, drafts);
      DraftsKeepAnchor(s.ledger, drafts, t.ledger, id);
    case DoEvaluate(auth, experimentId, phase, a, prior) =>
      ReplayedChangesNothing(seen, prior, s, auth, experimentId, phase, a, ids, now);
      var h, c := CaseOf(seen, prior, s, auth, experimentId, phase, a, ids, now);
      EvaluationReplay(s.ledger, c, t.ledger);
    case DoRebuild(order) => RebuildMirrors(directory, s, order, ids, now);
    case DoOther(drafts) =>
      AppendManyAppends(s.ledger, drafts);
      ReplayIgnores(s.ledger, drafts, t.ledger);
    case _ =>
  }

  lemma ActivationRegisters(auth: S.Auth, version: nat, hypothesisId: string, p: Parameters, ids: Ids, now: Time)
    requires |ids.entities| >= 1 && |ids.events| >= 3
    ensures forall d ::
              d in ActivationDrafts(auth, version, hypothesisId, p, ids, now)
              && d.material.payload.RegistrationPayload? ==>
              d.material.payload.experimentId == ids.entities[0]
  {}

  lemma DraftsKeepAnchor(before: Ledger, drafts: seq<Draft>, after: Ledger, id: string)
    requires Appended(before, drafts, after) && id in Replay(before.log).experiments
    requires forall d ::
               d in drafts && d.material.payload.RegistrationPayload? ==> d.material.payload.experimentId != id
    ensures id in Replay(after.log).experiments
            && Replay(after.log).experiments[id].anchor == Replay(before.log).experiments[id].anchor
  {
    hide Replay;
    ReplayedAnchorsStay(before, drafts, after, |drafts|, id);
    assert after.log[..|before.log| + |drafts|] == after.log;
  }

  /** Live and replay hold the experiment, at different anchors. */
  predicate AnchorsDiffer(s: State, id: string) {
    && id in s.tables.experiments && id in Replay(s.ledger.log).experiments
    && Replay(s.ledger.log).experiments[id].anchor != s.tables.experiments[id].anchor
  }

  // ---- the anchor over runs -----------------------------------------------------------------

  ghost predicate RebuiltBetween(trace: seq<State>, steps: seq<Step>, i: nat, j: nat)
    requires |trace| == |steps| + 1 && j <= |steps|
  {
    exists k :: i < k < j && RebuildsAt(trace, steps, k)
  }

  /**
   * Where the transactions after an activation are atomic, its experiment is anchored at the activation
   * until the first rebuild and one position later, at the registration, ever after; replay has it there
   * from the start. The recorded time is the same.
   */
  lemma {:induction false} AnchorOverRuns(directory: string -> S.Auth, trace: seq<State>, steps: seq<Step>, i: nat,
                                          j: nat)
    requires Run(directory, trace, steps) && i < j < |trace| && steps[i].action.DoActivate? && trace[i + 1] != trace[i]
    requires forall m :: i < m < j ==> steps[m].since == m
    ensures |steps[i].ids.entities| >= 4 && |steps[i].ids.events| >= 4
    ensures var id, at, now := steps[i].ids.entities[0], trace[i].ledger.next, steps[i].now;
            && id in trace[j].tables.experiments && id in Replay(trace[j].ledger.log).experiments
            && Replay(trace[j].ledger.log).experiments[id].anchor == Anchor(steps[i].ids.events[1], at + 1, now)
            && trace[j].tables.experiments[id].anchor ==
               if RebuiltBetween(trace, steps, i, j) then Anchor(steps[i].ids.events[1], at + 1, now)
               else Anchor(steps[i].ids.events[0], at, now)
    decreases j
  {
    hide Replay, Next, Sees;
    if j == i + 1 {
      var seen, step := trace[steps[i].since], steps[i];
      assert Next(directory, seen, trace[i], step, trace[j]);
      HistoricThroughout(directory, trace, steps, step.since, i);
      ActivationAnchors(directory, seen, trace[i], step, trace[j]);
    } else {
      AnchorOverRuns(directory, trace, steps, i, j - 1);
      var s, step, t, id := trace[j - 1], steps[j - 1], trace[j], steps[i].ids.entities[0];
      assert Next(directory, s, s, step, t);
      HistoricThroughout(directory, trace, steps, j - 1, j - 1);
      SeesMirror(directory, s, s);
      AnchorMovesOnlyByRebuild(directory, s, s, step, t, id);
      StepKeepsReplayAnchor(directory, s, s, step, t, id);
      RebuiltLast(trace, steps, i, j - 1);
    }
  }

  lemma RebuiltLast(trace: seq<State>, steps: seq<Step>, i: nat, j: nat)
    requires |trace| == |steps| + 1 && i < j < |steps|
    ensures RebuiltBetween(trace, steps, i, j + 1)
            <==> RebuiltBetween(trace, steps, i, j) || RebuildsAt(trace, steps, j)
  {}

  lemma ActivationAnchors(directory: string -> S.Auth, seen: State, s: State, step: Step, t: State)
    requires Next(directory, seen, s, step, t) && step.action.DoActivate? && t != s && Sees(directory, seen, s)
    ensures |step.ids.entities| >= 4 && |step.ids.events| >= 4
    ensures var id := step.ids.entities[0];
            && id in t.tables.experiments && id in Replay(t.ledger.log).experiments
            && t.tables.experiments[id].anchor == Anchor(step.ids.events[0], s.ledger.next, step.now)
            && Replay(t.ledger.log).experiments[id].anchor == Anchor(step.ids.events[1], s.ledger.next + 1, step.now)
  {
    hide Replay, FreshIds, S.AppendMany, ActivationDrafts, Sees;
    HasDrawn(s, step.ids);
    var act := step.action;
    RowSeen(directory, seen, s, act.hypothesisId);
    ReplayAnchorsOneLater(seen, NextVersion(seen, act.auth, "Hypothesis", act.hypothesisId), s, act.auth,
                          act.hypothesisId,
                          act.parameters, step.ids, step.now);
  }

  // ---- what writes live rows differ in ------------------------------------------------------

  /** Replay knows no fingerprints. */
  lemma {:induction false} ReplayedEvidence(log: seq<EngineEvent>)
    ensures forall id :: id in Replay(log).evidence ==> Replay(log).evidence[id].fingerprint.None?
  {
    if |log| > 0 {
      hide Replay, Apply;
      ReplayedEvidence(log[..|log| - 1]);
      ReplayLast(log);
      EvidenceApplied(Replay(log[..|log| - 1]), log[|log| - 1]);
    }
  }

  lemma ReplayLast(log: seq<EngineEvent>)
    requires |log| > 0
    ensures Replay(log) == Apply(Replay(log[..|log| - 1]), log[|log| - 1])
  {}

  lemma EvidenceApplied(t: Tables, e: EngineEvent)
    requires forall id :: id in t.evidence ==> t.evidence[id].fingerprint.None?
    ensures forall id :: id in Apply(t, e).evidence ==> Apply(t, e).evidence[id].fingerprint.None?
  {
    hide OnProposed, OnActivated, OnRetired, OnRegistered, WithStatus, OnEvidence, OnBelief, OnLearning;
    EvidenceKept(t, e);
    EvidenceHandled(t, e);
    forall x, status, state, at ensures WithStatus(t, x, status, state, at).evidence == t.evidence {
      StatusKeepsEvidence(t, x, status, state, at);
    }
  }

  lemma EvidenceKept(t: Tables, e: EngineEvent)
    ensures e.material.payload.ProposalPayload? ==> OnProposed(t, e).evidence == t.evidence
    ensures e.material.payload.ActivationPayload? ==> OnActivated(t, e).evidence == t.evidence
    ensures e.material.payload.RetirementPayload? ==> OnRetired(t, e).evidence == t.evidence
    ensures e.material.payload.RegistrationPayload? ==> OnRegistered(t, e).evidence == t.evidence
    ensures e.material.payload.BeliefPayload? ==> OnBelief(t, e).evidence == t.evidence
    ensures e.material.payload.LearningPayload? ==> OnLearning(t, e).evidence == t.evidence
  {}

  lemma StatusKeepsEvidence(t: Tables, x: string, status: string, state: Option<StateText>, at: Time)
    ensures WithStatus(t, x, status, state, at).evidence == t.evidence
  {}

  lemma EvidenceHandled(t: Tables, e: EngineEvent)
    requires forall id :: id in t.evidence ==> t.evidence[id].fingerprint.None?
    ensures e.material.payload.EvidencePayload? ==>
              forall id :: id in OnEvidence(t, e).evidence ==> OnEvidence(t, e).evidence[id].fingerprint.None?
  {}

  ghost predicate HasPrint(s: State) { exists id :: id in s.tables.evidence && s.tables.evidence[id].fingerprint.Some? }

  /** What replay cannot reproduce: a fingerprint, or the anchor of an activation. */
  ghost predicate Differs(s: State) { HasPrint(s) || exists id :: AnchorsDiffer(s, id) }

  lemma DifferenceShows(s: State)
    requires Differs(s)
    ensures !Matches(s)
  {
    hide Replay;
    ReplayedEvidence(s.ledger.log);
  }

  // ---- each step ----------------------------------------------------------------------------

  predicate Diverges(s: State, step: Step, t: State) { (step.action.DoActivate? || step.action.DoEvaluate?) && t != s }

  lemma EvaluationDiffers(directory: string -> S.Auth, seen: State, s: State, step: Step, t: State)
    requires Next(directory, seen, s, step, t) && step.action.DoEvaluate? && t != s && Sees(directory, seen, s)
    ensures HasPrint(t)
  {
    hide Sees, Replay, S.AppendMany, ReadsCurrent, FreshIds, Evaluate, EvaluationDrafts, UpsertBelief, AppendLearning;
    HasDrawn(s, step.ids);
    var act := step.action;
    ReplayedChangesNothing(seen, act.prior, s, act.auth, act.experimentId, act.phase, act.assessment, step.ids,
                           step.now);
    var h, c := CaseOf(seen, act.prior, s, act.auth, act.experimentId, act.phase, act.assessment, step.ids, step.now);
    assert t.tables.evidence[step.ids.entities[0]].fingerprint.Some?;
  }

  /** A difference stays through every step but a rebuild. */
  lemma DifferenceStays(directory: string -> S.Auth, seen: State, s: State, step: Step, t: State)
    requires Next(directory, seen, s, step, t) && Sees(directory, seen, s) && Differs(s)
    requires !Diverges(s, step, t) && !Rebuilds(s, step, t)
    ensures Differs(t)
  {
    hide Sees, Replay, S.AppendMany, ReadsCurrent, FreshIds, Mirror, Evaluate, Activate, Rebuild;
    SeesMirror(directory, seen, s);
    HasDrawn(s, step.ids);
    assert t.tables.evidence == s.tables.evidence && t.tables.experiments == s.tables.experiments;
    if !HasPrint(s) {
      var id :| AnchorsDiffer(s, id);
      StepKeepsReplayAnchor(directory, seen, s, step, t, id);
      assert AnchorsDiffer(t, id);
    }
  }

  lemma SeesMirror(directory: string -> S.Auth, seen: State, s: State)
    requires Sees(directory, seen, s)
    ensures Mirror(directory, seen) && Mirror(directory, s) && Later(seen, s)
  {}

  /** A match stays through every step but an activation and an evaluation, however stale the others are. */
  lemma MatchStays(directory: string -> S.Auth, seen: State, s: State, step: Step, t: State)
    requires Next(directory, seen, s, step, t) && Sees(directory, seen, s) && Matches(s) && !Diverges(s, step, t)
    ensures Matches(t)
  {
    hide Sees, Replay, S.AppendMany, ReadsCurrent, FreshIds, Mirror, Evaluate, Activate, Rebuild, Retire, Propose,
        ListsBeliefs;
    SeesMirror(directory, seen, s);
    HasDrawn(s, step.ids);
    if t == s { return; }
    match step.action
    case DoPropose(auth, proposed, confirmed) => ProposalMatches(s, auth, proposed, confirmed, step.ids, step.now);
    case DoRetire(auth, id, reason) => RetirementMatches(directory, seen, s, auth, id, reason, step.ids, step.now);
    case DoRebuild(order) => RebuildMirrors(directory, s, order, step.ids, step.now);
    case DoOther(drafts) =>
      AppendManyAppends(s.ledger, drafts);
      ReplayIgnores(s.ledger, drafts, t.ledger);
    case SetHead(_, _, _) =>
    case SkipTo(_) =>
  }

  lemma ProposalMatches(s: State, auth: S.Auth, proposed: Option<Parameters>, confirmed: bool, ids: Ids, now: Time)
    requires |ids.entities| >= 1 && |ids.events| >= 1 && Matches(s)
             && Propose(s, auth, proposed, confirmed, ids, now).Ok?
    ensures Matches(Propose(s, auth, proposed, confirmed, ids, now).value)
  {
    hide S.AppendMany, Replay;
    var drafts := [DraftFor(auth, HypothesisProposed, "Hypothesis", ids.entities[0], 1,
                            ProposalPayload(ids.entities[0], proposed, confirmed),
                            ids.events[0], ids.auditId, ids.requestId, Some(ids.key), now)];
    AppendManyAppends(s.ledger, drafts);
    ReplayOfOne(s.ledger, drafts, Propose(s, auth, proposed, confirmed, ids, now).value.ledger);
  }

  /** The row a retirement writes from what it read is the row replay makes of the one it found. */
  lemma RetirementMatches(directory: string -> S.Auth, seen: State, s: State, auth: S.Auth, id: string, reason: string,
                          ids: Ids, now: Time)
    requires Sees(directory, seen, s) && directory(auth.applicationId) == auth && |ids.events| >= 1 && Matches(s)
    requires Retire(seen, NextVersion(seen, auth, "Hypothesis", id), s, auth, id, reason, ids, now).Ok?
    ensures Matches(Retire(seen, NextVersion(seen, auth, "Hypothesis", id), s, auth, id, reason, ids, now).value)
  {
    hide S.AppendMany, Replay, Sees, LatestVersion, RowsFit, MovesOn, Begun;
    var t := Retire(seen, NextVersion(seen, auth, "Hypothesis", id), s, auth, id, reason, ids, now).value;
    var drafts := RetirementDrafts(seen, auth, id, reason, ids, now);
    AppendManyAppends(s.ledger, drafts);
    ReplayOfOne(s.ledger, drafts, t.ledger);
    RetirementIsNext(directory, seen, s, auth, id, reason, ids, now);
    RowSeen(directory, seen, s, id);
    assert t.tables.hypotheses[id] == OnRetired(s.tables, t.ledger.log[|s.ledger.log|]).hypotheses[id];
  }

  /** Right after a rebuild verification matches. */
  lemma MatchesAfterRebuild(directory: string -> S.Auth, seen: State, s: State, step: Step, t: State)
    requires Next(directory, seen, s, step, t) && Sees(directory, seen, s) && Rebuilds(s, step, t)
    ensures Matches(t)
  {
    hide Sees, Replay, FreshIds, Mirror, Rebuild, ListsBeliefs;
    SeesMirror(directory, seen, s);
    HasDrawn(s, step.ids);
    RebuildMirrors(directory, s, step.action.order, step.ids, step.now);
  }

  lemma ActivationDiffers(directory: string -> S.Auth, seen: State, s: State, step: Step, t: State)
    requires Next(directory, seen, s, step, t) && step.action.DoActivate? && t != s && Sees(directory, seen, s)
    ensures Differs(t)
  {
    hide Replay, Next, Sees, HasPrint;
    ActivationAnchors(directory, seen, s, step, t);
    assert AnchorsDiffer(t, step.ids.entities[0]);
  }

  lemma DivergenceDiffers(directory: string -> S.Auth, seen: State, s: State, step: Step, t: State)
    requires Next(directory, seen, s, step, t) && Sees(directory, seen, s) && Diverges(s, step, t)
    ensures Differs(t)
  {
    hide Sees, Next, AnchorsDiffer, HasPrint;
    if step.action.DoActivate? {
      ActivationDiffers(directory, seen, s, step, t);
    } else {
      EvaluationDiffers(directory, seen, s, step, t);
    }
  }

  // ---- over runs ----------------------------------------------------------------------------

  predicate DivergesAt(trace: seq<State>, steps: seq<Step>, m: nat)
    requires |trace| == |steps| + 1 && m < |steps|
  {
    Diverges(trace[m], steps[m], trace[m + 1])
  }

  /** Every committed activation and evaluation before `j` was followed by a rebuild. */
  ghost predicate Rebuilt(trace: seq<State>, steps: seq<Step>, j: nat)
    requires |trace| == |steps| + 1 && j <= |steps|
  {
    forall m :: 0 <= m < j && DivergesAt(trace, steps, m) ==> exists k :: m < k < j && RebuildsAt(trace, steps, k)
  }

  lemma RebuiltStep(trace: seq<State>, steps: seq<Step>, j: nat)
    requires |trace| == |steps| + 1 && j < |steps|
    ensures Rebuilt(trace, steps, j + 1) <==>
            !DivergesAt(trace, steps, j) && (RebuildsAt(trace, steps, j) || Rebuilt(trace, steps, j))
  {
    if !DivergesAt(trace, steps, j) && !RebuildsAt(trace, steps, j) && Rebuilt(trace, steps, j) {
      forall m | 0 <= m < j + 1 && DivergesAt(trace, steps, m)
          ensures exists k :: m < k < j + 1 && RebuildsAt(trace, steps, k) {
        var k :| m < k < j && RebuildsAt(trace, steps, k);
        assert m < k < j + 1;
      }
    }
  }

  /** Live and replayed rows are the same exactly when nothing in them differs. */
  lemma {:induction false} MatchesExactly(directory: string -> S.Auth, trace: seq<State>, steps: seq<Step>, j: nat)
    requires Run(directory, trace, steps) && j < |trace|
    ensures Matches(trace[j]) <==> Rebuilt(trace, steps, j)
    ensures Matches(trace[j]) <==> !Differs(trace[j])
  {
    if j == 0 {
      NothingToRebuild(trace, steps);
    } else {
      hide Replay, Next, Matches, Differs, Rebuilt, Sees;
      MatchesExactly(directory, trace, steps, j - 1);
      StepMatches(directory, trace, steps, j - 1);
      RebuiltStep(trace, steps, j - 1);
    }
  }

  lemma NothingToRebuild(trace: seq<State>, steps: seq<Step>)
    requires |trace| == |steps| + 1 && trace[0] == State(EMPTY, NO_ROWS)
    ensures Matches(trace[0]) && !Differs(trace[0]) && Rebuilt(trace, steps, 0)
  {}

  lemma StepMatches(directory: string -> S.Auth, trace: seq<State>, steps: seq<Step>, i: nat)
    requires Run(directory, trace, steps) && i < |steps| && (Matches(trace[i]) || Differs(trace[i]))
    ensures if DivergesAt(trace, steps, i) then Differs(trace[i + 1])
            else if RebuildsAt(trace, steps, i) || Matches(trace[i]) then Matches(trace[i + 1])
            else Differs(trace[i + 1])
    ensures Differs(trace[i + 1]) ==> !Matches(trace[i + 1])
  {
    hide Replay, Next, Matches, Differs, Sees;
    var seen, s, step, t := trace[steps[i].since], trace[i], steps[i], trace[i + 1];
    assert Next(directory, seen, s, step, t);
    HistoricThroughout(directory, trace, steps, steps[i].since, i);
    if Differs(t) { DifferenceShows(t); }
    if DivergesAt(trace, steps, i) {
      DivergenceDiffers(directory, seen, s, step, t);
    } else if RebuildsAt(trace, steps, i) {
      MatchesAfterRebuild(directory, seen, s, step, t);
    } else if Matches(s) {
      MatchStays(directory, seen, s, step, t);
    } else {
      DifferenceStays(directory, seen, s, step, t);
    }
  }

  // ---- what the verification reports --------------------------------------------------------

  /** No event unknown to replay, and equal checksums. */
  ghost predicate Verifies(s: State) { (forall e :: e in s.ledger.log ==> Handled(e)) && Matches(s) }

  lemma LoggedIsHandled(before: Ledger, drafts: seq<Draft>, after: Ledger)
    requires Logged(before, drafts, after) && forall e :: e in before.log ==> Handled(e)
    ensures forall e :: e in after.log ==> Handled(e)
  {
    var n := |before.log|;
    forall e | e in after.log ensures Handled(e) {
      var i :| 0 <= i < |after.log| && after.log[i] == e;
      if i < n {
        assert before.log[i] == e;
      } else {
        assert IsDraft(after.log[n + (i - n)], drafts[i - n], before.next + (i - n));
      }
    }
  }

  /** Every event a run records is one replay knows. */
  lemma {:induction false} HandledThroughout(directory: string -> S.Auth, trace: seq<State>, steps: seq<Step>, i: nat)
    requires Run(directory, trace, steps) && i < |trace|
    ensures forall e :: e in trace[i].ledger.log ==> Handled(e)
  {
    if i > 0 {
      hide Next, Handled, Logged;
      HandledThroughout(directory, trace, steps, i - 1);
      var seen, s, step, t := trace[steps[i - 1].since], trace[i - 1], steps[i - 1], trace[i];
      assert Next(directory, seen, s, step, t);
      var drafts := WhatWasLogged(directory, seen, s, step, t);
      LoggedIsHandled(s.ledger, drafts, t.ledger);
    }
  }

  lemma WhatWasLogged(directory: string -> S.Auth, seen: State, s: State, step: Step, t: State)
      returns (drafts: seq<Draft>)
    requires Next(directory, seen, s, step, t)
    ensures Logged(s.ledger, drafts, t.ledger)
  {
    hide Evaluate, ReadsCurrent, EvaluationDrafts, TablesAfter;
    if !step.action.DoEvaluate? {
      hide Next;
      drafts := StepLogs(directory, seen, s, step, t);
    } else {
      HasIds(s, step.ids);
      var act := step.action;
      ReplayedChangesNothing(seen, act.prior, s, act.auth, act.experimentId, act.phase, act.assessment, step.ids,
                             step.now);
      drafts := [];
      if t != s {
        var h, c := CaseOf(seen, act.prior, s, act.auth, act.experimentId, act.phase, act.assessment, step.ids,
                           step.now);
        drafts := c.Drafts();
      }
    }
  }

  /**
   * In every run, of atomic or of stale transactions, the epistemic verification reports a match exactly
   * when each activation and each evaluation that committed was followed by a rebuild. Proposals,
   * retirements, other events and repeated fingerprints never make it fail, and no event is unknown to it.
   */
  lemma VerifiesExactly(directory: string -> S.Auth, trace: seq<State>, steps: seq<Step>, j: nat)
    requires Run(directory, trace, steps) && j < |trace|
    ensures Verifies(trace[j]) <==> Rebuilt(trace, steps, j)
    ensures Verifies(trace[j]) <==> !Differs(trace[j])
  {
    hide Next, Handled, Matches, Differs, Rebuilt;
    HandledThroughout(directory, trace, steps, j);
    MatchesExactly(directory, trace, steps, j);
  }
}
