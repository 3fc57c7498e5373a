/**
 * Repeated fingerprints: when one is recognised, and that it is answered with the rows of the evaluation that
 * first bore it.
 */
module EpistemicReplies {
  import opened Common
  import opened Ledger
  import S = Submission
  import opened Epistemic
  import opened EpistemicRuns
  import opened EpistemicMirror
  import opened EpistemicTheorems
  import opened EpistemicGates
  import opened EpistemicHistory
  import opened EpistemicRetirement
  import opened EpistemicVerification

  predicate SamePrint(a: Evidence, b: Evidence) {
    && a.key.ownerId == b.key.ownerId && a.key.applicationId == b.key.applicationId && a.experimentId == b.experimentId
    && a.phase == b.phase && a.fingerprint.Some? && a.fingerprint == b.fingerprint
  }

  /** The rows of live and of replay have the same ids, and one live row bears a fingerprint. */
  ghost predicate OnePrintEach(evidence: map<string, Evidence>, replayed: map<string, Evidence>) {
    && evidence.Keys == replayed.Keys
    && (forall id :: id in evidence ==> evidence[id].id == id && replayed[id].id == id)
    && (forall a, b :: a in evidence && b in evidence && SamePrint(evidence[a], evidence[b]) ==> a == b)
  }

  /** Each belief names evidence, and no two the same. */
  ghost predicate OneBeliefEach(beliefs: map<string, Belief>, evidence: map<string, Evidence>) {
    && (forall id :: id in beliefs ==> beliefs[id].evidenceId in evidence)
    && (forall a, b :: a in beliefs && b in beliefs && beliefs[a].evidenceId == beliefs[b].evidenceId ==> a == b)
  }

  ghost predicate Paired(t: Tables, replayed: Tables) {
    OnePrintEach(t.evidence, replayed.evidence) && OneBeliefEach(t.beliefs, t.evidence)
  }

  // ---- replayed evidence --------------------------------------------------------------------

  lemma {:induction false} ReplayKeepsEvidence(before: Ledger, drafts: seq<Draft>, after: Ledger, n: nat)
    requires Logged(before, drafts, after) && n <= |drafts|
             && forall d :: d in drafts ==> !IsGateEvent(d.material.eventType)
    ensures Replay(after.log[..|before.log| + n]).evidence == Replay(before.log).evidence
  {
    hide Replay, Apply;
    if n == 0 {
      assert after.log[..|before.log|] == before.log;
    } else {
      ReplayKeepsEvidence(before, drafts, after, n - 1);
      ReplayNext(after.log, |before.log| + n - 1);
      assert IsDraft(after.log[|before.log| + (n - 1)], drafts[n - 1], before.next + (n - 1));
      assert drafts[n - 1] in drafts;
      OthersKeepEvidence(Replay(after.log[..|before.log| + n - 1]), after.log[|before.log| + n - 1]);
    }
  }

  lemma OthersKeepEvidence(t: Tables, e: EngineEvent)
    requires !e.material.eventType.EvidenceEvaluated?
    ensures Apply(t, e).evidence == t.evidence
  {
    hide OnProposed, OnActivated, OnRetired, OnRegistered, WithStatus, OnEvidence, OnBelief, OnLearning;
    EvidenceKept(t, e);
    forall x, status, state, at ensures WithStatus(t, x, status, state, at).evidence == t.evidence {
      StatusKeepsEvidence(t, x, status, state, at);
    }
  }

  /** The evidence row replay makes of an evaluation: the live one without its fingerprint and terminal flag. */
  function ReplayedEvidenceOf(c: Case, position: nat): Evidence
    requires c.Valid()
  {
    EvidenceRow(c.x, c.auth, c.phase, c.a, c.d, c.ids, position, c.now).(fingerprint := None, terminal := false)
  }

  /** An evaluation adds its evidence to the replayed rows, under the id its event carries. */
  lemma EvaluationAddsEvidence(before: Ledger, c: Case, after: Ledger)
    requires c.Valid() && Appended(before, c.Drafts(), after)
    ensures Replay(after.log).evidence ==
            Replay(before.log).evidence[c.ids.entities[0] := ReplayedEvidenceOf(c, before.next)]
  {
    hide Replay, Apply, EvaluationDrafts, IsDraft, ReplayedEvidenceOf;
    var drafts, n, log := c.Drafts(), |before.log|, after.log;
    DraftCount(c);
    ReplayOfTwo(before, drafts, after);
    var t := Replay(before.log);
    NewEvidenceEvent(c, t, log[n], before.next);
    LaterDraftKinds(c);
    DraftKind(log[n + 1], drafts[1], before.next + 1);
    OthersKeepEvidence(Apply(t, log[n]), log[n + 1]);
    if c.d.terminal {
      ReplayOfFour(before, drafts, after);
      var u := Apply(Apply(t, log[n]), log[n + 1]);
      DraftKind(log[n + 2], drafts[2], before.next + 2);
      DraftKind(log[n + 3], drafts[3], before.next + 3);
      OthersKeepEvidence(u, log[n + 2]);
      OthersKeepEvidence(Apply(u, log[n + 2]), log[n + 3]);
    }
  }

  lemma NewEvidenceEvent(c: Case, t: Tables, e: EngineEvent, position: nat)
    requires c.Valid() && IsDraft(e, c.Drafts()[0], position)
    ensures Apply(t, e).evidence == t.evidence[c.ids.entities[0] := ReplayedEvidenceOf(c, position)]
  {
    hide EvaluationDrafts, OnProposed, OnActivated, OnRetired, OnRegistered, WithStatus, OnBelief, OnLearning;
    EvidenceDraft(c);
    EvidencePayloadOf(c);
  }

  /** The payload and envelope of the evidence event say what the row says. */
  lemma EvidencePayloadOf(c: Case)
    requires c.Valid()
    ensures var m, row := c.Drafts()[0].material, ReplayedEvidenceOf(c, 0);
            && m.payload == EvidencePayload(row.id, row.hypothesisId, row.experimentId, row.phase, row.eligible,
                                            row.excluded, row.sufficient, row.below, row.state, c.d.terminal)
            && m.Key() == row.key && m.occurredAt == row.generatedAt && m.auditId == row.auditId
            && m.eventId == row.eventId && row.id == c.ids.entities[0]
  {}

  lemma LaterDraftKinds(c: Case)
    requires c.Valid()
    ensures forall i :: 1 <= i < |c.Drafts()| ==> !c.Drafts()[i].material.eventType.EvidenceEvaluated?
  {}

  lemma DraftKind(e: EngineEvent, d: Draft, position: nat)
    requires IsDraft(e, d, position)
    ensures e.material.eventType == d.material.eventType
  {}

  // ---- each step ----------------------------------------------------------------------------

  lemma EvaluationPairs(s: State, h: Hypothesis, c: Case, t: State)
    requires c.Valid() && Paired(s.tables, Replay(s.ledger.log)) && Appended(s.ledger, c.Drafts(), t.ledger)
             && t.tables == TablesAfter(s, h, c)
    requires Unused(s.tables, c.ids.entities[0]) && Unused(s.tables, c.ids.entities[1])
    requires !FingerprintTaken(s.tables, c.auth, c.x.id, c.phase, c.a.fingerprint)
    ensures Paired(t.tables, Replay(t.ledger.log))
  {
    hide Replay, EvaluationDrafts, TablesAfter, UpsertBelief, OnePrintEach, OneBeliefEach;
    EvaluationAddsEvidence(s.ledger, c, t.ledger);
    EvidenceAfter(s, h, c);
    forall id | id in s.tables.evidence
        ensures !SamePrint(s.tables.evidence[id], t.tables.evidence[c.ids.entities[0]]) {
      assert !Bears(s.tables.evidence[id], c.auth, c.x.id, c.phase, c.a.fingerprint);
    }
    var row := ReplayedEvidenceOf(c, s.ledger.next);
    EvidenceAdded(s.tables.evidence, Replay(s.ledger.log).evidence, t.tables.evidence[row.id], row);
    BeliefAdded(s.tables.beliefs, s.tables.evidence, t.tables.evidence[row.id], NewBelief(c, s.ledger.next + 1));
  }

  /** A new evidence with a print of its own. */
  lemma EvidenceAdded(evidence: map<string, Evidence>, replayed: map<string, Evidence>, live: Evidence, row: Evidence)
    requires OnePrintEach(evidence, replayed) && live.id == row.id && row.id !in evidence
    requires forall id :: id in evidence ==> !SamePrint(evidence[id], live)
    ensures OnePrintEach(evidence[row.id := live], replayed[row.id := row])
  {
    hide SamePrint;
    var more := evidence[row.id := live];
    forall a, b | a in more && b in more && SamePrint(more[a], more[b]) ensures a == b {
      PrintsEitherWay(more[a], more[b]);
    }
  }

  /** The first belief bound to a new evidence. */
  lemma BeliefAdded(beliefs: map<string, Belief>, evidence: map<string, Evidence>, live: Evidence, belief: Belief)
    requires OneBeliefEach(beliefs, evidence) && live.id !in evidence && belief.id !in beliefs
             && belief.evidenceId == live.id
    ensures OneBeliefEach(UpsertBelief(beliefs, belief), evidence[live.id := live])
  {
    hide UpsertBelief, SameChain;
    UpsertAt(beliefs, belief);
  }

  lemma PrintsEitherWay(a: Evidence, b: Evidence)
    ensures SamePrint(a, b) <==> SamePrint(b, a)
  {}

  lemma EvidenceAfter(s: State, h: Hypothesis, c: Case)
    requires c.Valid()
    ensures var t := TablesAfter(s, h, c);
            && c.ids.entities[0] in t.evidence
               && t.evidence == s.tables.evidence[c.ids.entities[0] := t.evidence[c.ids.entities[0]]]
            && Bears(t.evidence[c.ids.entities[0]], c.auth, c.x.id, c.phase, c.a.fingerprint)
            && t.evidence[c.ids.entities[0]].id == c.ids.entities[0]
               && t.evidence[c.ids.entities[0]].key == c.auth.Key()
            && t.beliefs == UpsertBelief(s.tables.beliefs, NewBelief(c, s.ledger.next + 1))
            && BoundTo(NewBelief(c, s.ledger.next + 1), c.auth, c.x.hypothesisId, c.ids.entities[0])
            && NewBelief(c, s.ledger.next + 1).id == c.ids.entities[1]
  {
    hide UpsertBelief, AppendLearning, LearningRow, ExperimentStatus;
  }

  lemma RebuildPairs(t: Tables, replayed: Tables)
    requires Paired(t, replayed) && t.beliefs == replayed.beliefs
    requires forall id :: id in replayed.evidence ==> replayed.evidence[id].fingerprint.None?
    ensures Paired(replayed, replayed)
  {}

  /** What a committed evaluation wrote, and what it did not find. */
  lemma EvaluationCase(directory: string -> S.Auth, seen: State, s: State, step: Step, t: State)
      returns (h: Hypothesis, c: Case)
    requires Next(directory, seen, s, step, t) && Sees(directory, seen, s) && step.action.DoEvaluate? && t != s
    ensures c.Valid() && Appended(s.ledger, c.Drafts(), t.ledger) && t.tables == TablesAfter(s, h, c)
    ensures c.ids == step.ids && c.auth == step.action.auth && c.x.id == step.action.experimentId
            && c.phase == step.action.phase
    ensures c.a == step.action.assessment && !FingerprintTaken(s.tables, c.auth, c.x.id, c.phase, c.a.fingerprint)
    ensures FindExperiment(seen.tables, c.auth, c.x.id) == Some(c.x)
    ensures Unused(s.tables, c.ids.entities[0]) && Unused(s.tables, c.ids.entities[1])
  {
    hide Sees, Replay, S.AppendMany, ReadsCurrent, Evaluate, EvaluationDrafts, UpsertBelief, AppendLearning,
        TablesAfter, FingerprintTaken;
    HasDrawn(s, step.ids);
    var act := step.action;
    ReplayedChangesNothing(seen, act.prior, s, act.auth, act.experimentId, act.phase, act.assessment, step.ids,
                           step.now);
    h, c := CaseOf(seen, act.prior, s, act.auth, act.experimentId, act.phase, act.assessment, step.ids, step.now);
    SeesMirror(directory, seen, s);
    CaseFinds(seen, c, act.experimentId, directory);
  }

  /** A step other than an evaluation and a rebuild touches neither evidence nor beliefs. */
  lemma OthersKeepRows(directory: string -> S.Auth, seen: State, s: State, step: Step, t: State)
    requires Next(directory, seen, s, step, t) && !step.action.DoEvaluate? && !Rebuilds(s, step, t)
    ensures t.tables.evidence == s.tables.evidence && t.tables.beliefs == s.tables.beliefs
  {
    hide Replay, FreshIds, S.AppendMany, Rebuild, ListsBeliefs, Evaluate, ReadsCurrent, ActivationDrafts, NextVersion,
        DraftFor;
    HasDrawn(s, step.ids);
  }

  lemma StepPairs(directory: string -> S.Auth, seen: State, s: State, step: Step, t: State)
    requires Next(directory, seen, s, step, t) && Sees(directory, seen, s) && Paired(s.tables, Replay(s.ledger.log))
    ensures Paired(t.tables, Replay(t.ledger.log))
  {
    hide Next, Sees, Replay, Paired, FreshIds, Rebuild;
    if t == s { return; }
    if step.action.DoEvaluate? {
      var h, c := EvaluationCase(directory, seen, s, step, t);
      EvaluationPairs(s, h, c, t);
    } else {
      var drafts := StepLogs(directory, seen, s, step, t);
      ReplayKeepsEvidence(s.ledger, drafts, t.ledger, |drafts|);
      assert t.ledger.log[..|s.ledger.log| + |drafts|] == t.ledger.log;
      if step.action.DoRebuild? {
        RebuiltRows(directory, seen, s, step, t);
        ReplayedEvidence(s.ledger.log);
        RebuildPairs(s.tables, Replay(s.ledger.log));
      } else {
        OthersKeepRows(directory, seen, s, step, t);
        PairedRows(s.tables, Replay(s.ledger.log), t.tables, Replay(t.ledger.log));
      }
    }
  }

  lemma RebuiltRows(directory: string -> S.Auth, seen: State, s: State, step: Step, t: State)
    requires Next(directory, seen, s, step, t) && Sees(directory, seen, s) && Rebuilds(s, step, t)
    ensures t.tables == Replay(s.ledger.log) == Replay(t.ledger.log) && s.tables.beliefs == Replay(s.ledger.log).beliefs
  {
    hide Sees, Replay, FreshIds, Rebuild, ListsBeliefs, Ranked, Owned;
    SeesMirror(directory, seen, s);
    HasDrawn(s, step.ids);
    RebuildMirrors(directory, s, step.action.order, step.ids, step.now);
  }

  lemma PairedRows(t: Tables, replayed: Tables, u: Tables, again: Tables)
    requires Paired(t, replayed) && u.evidence == t.evidence && u.beliefs == t.beliefs
             && again.evidence == replayed.evidence
    ensures Paired(u, again)
  {}

  // ---- over runs ----------------------------------------------------------------------------

  /** In every run a fingerprint is borne by one row, and each evidence has one belief. */
  lemma {:induction false} PairedThroughout(directory: string -> S.Auth, trace: seq<State>, steps: seq<Step>, i: nat)
    requires Run(directory, trace, steps) && i < |trace|
    ensures Paired(trace[i].tables, Replay(trace[i].ledger.log))
  {
    if i > 0 {
      hide Paired, Sees, Replay, Next;
      PairedThroughout(directory, trace, steps, i - 1);
      HistoricThroughout(directory, trace, steps, steps[i - 1].since, i - 1);
      assert Next(directory, trace[steps[i - 1].since], trace[i - 1], steps[i - 1], trace[i]);
      StepPairs(directory, trace[steps[i - 1].since], trace[i - 1], steps[i - 1], trace[i]);
    }
  }

  /** A committed evaluation of the experiment and phase that bore the fingerprint. */
  predicate BoreAt(trace: seq<State>, steps: seq<Step>, m: nat, auth: S.Auth, x: string, phase: EvidencePhase,
                   fingerprint: string)
    requires |trace| == |steps| + 1 && m < |steps|
  {
    var act := steps[m].action;
    && act.DoEvaluate? && trace[m + 1] != trace[m] && act.experimentId == x && act.phase == phase
    && act.auth.ownerId == auth.ownerId && act.auth.applicationId == auth.applicationId
       && act.assessment.fingerprint == fingerprint
  }

  /** A committed evaluation bore the fingerprint, and no rebuild has come since. */
  ghost predicate Borne(trace: seq<State>, steps: seq<Step>, j: nat, auth: S.Auth, x: string, phase: EvidencePhase,
                        fingerprint: string)
    requires |trace| == |steps| + 1 && j <= |steps|
  {
    exists m :: && 0 <= m < j && BoreAt(trace, steps, m, auth, x, phase, fingerprint)
                && !RebuiltBetween(trace, steps, m, j)
  }

  lemma BorneStep(trace: seq<State>, steps: seq<Step>, j: nat, auth: S.Auth, x: string, phase: EvidencePhase,
                  fingerprint: string)
    requires |trace| == |steps| + 1 && j < |steps|
    ensures Borne(trace, steps, j + 1, auth, x, phase, fingerprint) <==>
            || BoreAt(trace, steps, j, auth, x, phase, fingerprint)
            || (!RebuildsAt(trace, steps, j) && Borne(trace, steps, j, auth, x, phase, fingerprint))
  {
    hide BoreAt, RebuildsAt;
    forall m | 0 <= m < j
      ensures RebuiltBetween(trace, steps, m, j + 1)
              <==> RebuiltBetween(trace, steps, m, j) || RebuildsAt(trace, steps, j)
    {
      RebuiltLast(trace, steps, m, j);
    }
    if BoreAt(trace, steps, j, auth, x, phase, fingerprint) { assert !RebuiltBetween(trace, steps, j, j + 1); }
  }

  lemma StepPrints(directory: string -> S.Auth, trace: seq<State>, steps: seq<Step>, i: nat, auth: S.Auth, x: string,
                   phase: EvidencePhase,
                   fingerprint: string)
    requires Run(directory, trace, steps) && i < |steps|
    ensures FingerprintTaken(trace[i + 1].tables, auth, x, phase, fingerprint) <==>
            || BoreAt(trace, steps, i, auth, x, phase, fingerprint)
            || (!RebuildsAt(trace, steps, i) && FingerprintTaken(trace[i].tables, auth, x, phase, fingerprint))
  {
    hide Next, Sees, Replay;
    var seen, s, step, t := trace[steps[i].since], trace[i], steps[i], trace[i + 1];
    assert Next(directory, seen, s, step, t);
    HistoricThroughout(directory, trace, steps, steps[i].since, i);
    if t == s {
    } else if step.action.DoEvaluate? {
      var h, c := EvaluationCase(directory, seen, s, step, t);
      EvidenceAfter(s, h, c);
      PrintAdded(s.tables, t.tables, c.ids.entities[0], auth, x, phase, fingerprint);
    } else if step.action.DoRebuild? {
      RebuiltRows(directory, seen, s, step, t);
      ReplayedEvidence(s.ledger.log);
    } else {
      OthersKeepRows(directory, seen, s, step, t);
    }
  }

  lemma PrintAdded(t: Tables, u: Tables, id: string, auth: S.Auth, x: string, phase: EvidencePhase, fingerprint: string)
    requires id !in t.evidence && id in u.evidence && u.evidence == t.evidence[id := u.evidence[id]]
    ensures FingerprintTaken(u, auth, x, phase, fingerprint) <==>
            FingerprintTaken(t, auth, x, phase, fingerprint) || Bears(u.evidence[id], auth, x, phase, fingerprint)
  {
    hide Bears;
    if FingerprintTaken(t, auth, x, phase, fingerprint) {
      var i :| i in t.evidence && Bears(t.evidence[i], auth, x, phase, fingerprint);
      assert i in u.evidence && Bears(u.evidence[i], auth, x, phase, fingerprint);
    }
  }

  /** A fingerprint is recognised exactly when a committed evaluation bore it and no rebuild has come since. */
  lemma {:induction false} RecognisedExactly(directory: string -> S.Auth, trace: seq<State>, steps: seq<Step>, j: nat,
                                             auth: S.Auth,
                                             x: string, phase: EvidencePhase, fingerprint: string)
    requires Run(directory, trace, steps) && j < |trace|
    ensures FingerprintTaken(trace[j].tables, auth, x, phase, fingerprint)
            <==> Borne(trace, steps, j, auth, x, phase, fingerprint)
  {
    if j > 0 {
      hide Next, FingerprintTaken, Borne, BoreAt;
      RecognisedExactly(directory, trace, steps, j - 1, auth, x, phase, fingerprint);
      StepPrints(directory, trace, steps, j - 1, auth, x, phase, fingerprint);
      BorneStep(trace, steps, j - 1, auth, x, phase, fingerprint);
    }
  }

  /** Until the next rebuild the rows of an evaluation stay, but for the belief's currency. */
  ghost predicate RowsStay(t: Tables, u: Tables) {
    && (forall id :: id in t.evidence ==> id in u.evidence && u.evidence[id] == t.evidence[id])
    && (forall id ::
        id in t.beliefs ==> id in u.beliefs && u.beliefs[id].(isCurrent := false) == t.beliefs[id].(isCurrent := false))
  }

  lemma {:induction false} RowsStayUntilRebuild(directory: string -> S.Auth, trace: seq<State>, steps: seq<Step>,
                                                i: nat, j: nat)
    requires Run(directory, trace, steps) && i <= j < |trace| && forall k :: i <= k < j ==> !RebuildsAt(trace, steps, k)
    ensures RowsStay(trace[i].tables, trace[j].tables)
    decreases j
  {
    hide Next, Sees, Replay, RebuildsAt;
    if i < j {
      RowsStayUntilRebuild(directory, trace, steps, i, j - 1);
      var seen, s, step, t := trace[steps[j - 1].since], trace[j - 1], steps[j - 1], trace[j];
      assert Next(directory, seen, s, step, t);
      HistoricThroughout(directory, trace, steps, steps[j - 1].since, j - 1);
      if t != s {
        assert !RebuildsAt(trace, steps, j - 1);
        if step.action.DoEvaluate? {
          var h, c := EvaluationCase(directory, seen, s, step, t);
          EvaluationAdds(s, h, c);
        } else {
          NotRebuilt(trace, steps, j - 1);
          OthersKeepRows(directory, seen, s, step, t);
        }
      }
    }
  }

  lemma NotRebuilt(trace: seq<State>, steps: seq<Step>, k: nat)
    requires |trace| == |steps| + 1 && k < |steps| && !RebuildsAt(trace, steps, k)
    ensures !Rebuilds(trace[k], steps[k], trace[k + 1])
  {}

  lemma EvaluationAdds(s: State, h: Hypothesis, c: Case)
    requires c.Valid() && Unused(s.tables, c.ids.entities[0]) && Unused(s.tables, c.ids.entities[1])
    ensures RowsStay(s.tables, TablesAfter(s, h, c))
  {
    hide TablesAfter, UpsertBelief, BeliefRow;
    EvidenceAfter(s, h, c);
    UpsertAt(s.tables.beliefs, NewBelief(c, s.ledger.next + 1));
  }

  /**
   * Until the next rebuild a repeated fingerprint is recognised and answered with the rows of the
   * evaluation that first bore it: its evidence, unchanged, and its belief, current or not.
   */
  lemma RepeatAnswersOriginal(directory: string -> S.Auth, trace: seq<State>, steps: seq<Step>, i: nat, j: nat,
                              auth: S.Auth, x: Experiment,
                              phase: EvidencePhase, fingerprint: string, current: Option<Belief>, r: EvaluationReply)
    requires Run(directory, trace, steps) && i < j < |trace| && BoreAt(trace, steps, i, auth, x.id, phase, fingerprint)
    requires !RebuiltBetween(trace, steps, i, j) && FindExperiment(trace[j].tables, auth, x.id) == Some(x)
    requires AnswersFrom(trace[j].tables, auth, x, phase, fingerprint, current, r)
    ensures |steps[i].ids.entities| >= 4 && steps[i].ids.entities[0] in trace[i + 1].tables.evidence
    ensures r.evidence == trace[i + 1].tables.evidence[steps[i].ids.entities[0]]
    ensures r.belief.Some? && r.belief.value.id == steps[i].ids.entities[1]
    ensures FingerprintTaken(trace[j].tables, auth, x.id, phase, fingerprint)
  {
    hide Next, Sees, Replay, Bears, BoundTo, TablesAfter;
    var seen, s, step, t := trace[steps[i].since], trace[i], steps[i], trace[i + 1];
    assert Next(directory, seen, s, step, t);
    HistoricThroughout(directory, trace, steps, steps[i].since, i);
    HistoricThroughout(directory, trace, steps, steps[i].since, j);
    var h, c := EvaluationCase(directory, seen, s, step, t);
    EvidenceAfter(s, h, c);
    UpsertAt(s.tables.beliefs, NewBelief(c, s.ledger.next + 1));
    RowsStayUntilRebuild(directory, trace, steps, i + 1, j);
    PairedThroughout(directory, trace, steps, j);
    SameHypothesisOf(directory, seen, trace[j], c.x, x);
    var e, b := c.ids.entities[0], c.ids.entities[1];
    BearsOnce(trace[j].tables, Replay(trace[j].ledger.log), e, r.evidence.id, c.auth, auth, x.id, phase, fingerprint);
    BoundOnce(trace[j].tables, Replay(trace[j].ledger.log), b, auth, x.hypothesisId, e, current, r.belief)
      by { StillBound(t.tables.beliefs[b], trace[j].tables.beliefs[b], c.auth, auth, c.x.hypothesisId, e); }
  }

  lemma SameHypothesisOf(directory: string -> S.Auth, seen: State, s: State, x: Experiment, y: Experiment)
    requires Sees(directory, seen, s) && x.id == y.id && x.id in seen.tables.experiments
             && seen.tables.experiments[x.id] == x
    requires y.id in s.tables.experiments && s.tables.experiments[y.id] == y
    ensures y.hypothesisId == x.hypothesisId
  {
    SeesMirror(directory, seen, s);
    SeenExperiment(directory, seen, s, x.id);
  }

  lemma BearsOnce(t: Tables, replayed: Tables, e: string, f: string, mine: S.Auth, auth: S.Auth, x: string,
                  phase: EvidencePhase,
                  fingerprint: string)
    requires Paired(t, replayed) && e in t.evidence && f in t.evidence && mine.ownerId == auth.ownerId
             && mine.applicationId == auth.applicationId
    requires Bears(t.evidence[e], mine, x, phase, fingerprint) && Bears(t.evidence[f], auth, x, phase, fingerprint)
    ensures e == f && FingerprintTaken(t, auth, x, phase, fingerprint)
  {
    assert SamePrint(t.evidence[e], t.evidence[f]);
  }

  lemma StillBound(b: Belief, later: Belief, mine: S.Auth, auth: S.Auth, hypothesisId: string, e: string)
    requires BoundTo(b, mine, hypothesisId, e) && later.(isCurrent := false) == b.(isCurrent := false)
    requires mine.ownerId == auth.ownerId && mine.applicationId == auth.applicationId
    ensures BoundTo(later, auth, hypothesisId, e)
  {}

  lemma BoundOnce(t: Tables, replayed: Tables, b: string, auth: S.Auth, hypothesisId: string, e: string,
                  current: Option<Belief>,
                  belief: Option<Belief>)
    requires Paired(t, replayed) && b in t.beliefs && BoundTo(t.beliefs[b], auth, hypothesisId, e)
    requires PrefersBound(t.beliefs, auth, hypothesisId, e, current, belief)
    ensures belief.Some? && belief.value.id == b
  {}
}
