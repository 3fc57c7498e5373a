/**
 * Retirement over runs of stale transactions: what the log remembers, what the live row shows, and when the
 * two differ.
 */
module EpistemicRetirement {
  import opened Common
  import opened Ledger
  import S = Submission
  import opened Epistemic
  import opened EpistemicRuns
  import opened EpistemicMirror
  import opened EpistemicTheorems
  import opened EpistemicLifecycle
  import opened EpistemicHistory

  predicate IsRetired(rows: map<string, Hypothesis>, id: string) { id in rows && rows[id].status == RETIRED }

  /** The transaction evaluated an experiment of the hypothesis: which one, it read in the state it saw. */
  ghost predicate EvaluatesIt(seen: State, s: State, step: Step, t: State, id: string) {
    && step.action.DoEvaluate? && t != s && step.action.experimentId in seen.tables.experiments
    && seen.tables.experiments[step.action.experimentId].hypothesisId == id
  }

  predicate RetiresIt(s: State, step: Step, t: State, id: string) {
    step.action.DoRetire? && step.action.hypothesisId == id && t != s
  }

  predicate Rebuilds(s: State, step: Step, t: State) { step.action.DoRebuild? && t != s }

  // ---- one step -----------------------------------------------------------------------------

  /** What one step makes of the retirement of a hypothesis, in the live rows and in the replayed ones. */
  ghost predicate Tracks(seen: State, s: State, step: Step, t: State, id: string) {
    var live, replayed := s.tables.hypotheses, Replay(s.ledger.log).hypotheses;
    && (IsRetired(Replay(t.ledger.log).hypotheses, id) <==> IsRetired(replayed, id) || RetiresIt(s, step, t, id))
    && (IsRetired(t.tables.hypotheses, id) <==>
          if EvaluatesIt(seen, s, step, t, id) then false
          else if RetiresIt(s, step, t, id) then true
          else if Rebuilds(s, step, t) then IsRetired(replayed, id)
          else IsRetired(live, id))
  }

  /** One row written on both sides. */
  lemma RetiredAfter(rows: map<string, Hypothesis>, id: string, h: Hypothesis, i: string)
    ensures IsRetired(rows[id := h], i) <==> if i == id then h.status == RETIRED else IsRetired(rows, i)
  {}

  lemma ProposeTracks(directory: string -> S.Auth, seen: State, s: State, step: Step, t: State, id: string)
    requires Next(directory, seen, s, step, t) && Sees(directory, seen, s) && step.action.DoPropose? && t != s
    ensures Tracks(seen, s, step, t, id)
  {
    hide S.AppendMany, Replay, Mirror, Later, Alive, Historic, Onward, FreshIds, IsRetired;
    DrawnIds(directory, s, step.ids);
    var ids, auth, now := step.ids, step.action.auth, step.now;
    var drafts := [DraftFor(auth, HypothesisProposed, "Hypothesis", ids.entities[0], 1,
                            ProposalPayload(ids.entities[0], step.action.proposed, step.action.confirmed),
                            ids.events[0], ids.auditId, ids.requestId, Some(ids.key), now)];
    AppendManyAppends(s.ledger, drafts);
    ReplayOfOne(s.ledger, drafts, t.ledger);
    AbsentIsNotRetired(s.tables.hypotheses, ids.entities[0]);
    AbsentIsNotRetired(Replay(s.ledger.log).hypotheses, ids.entities[0]);
    RetiredAfter(s.tables.hypotheses, ids.entities[0], t.tables.hypotheses[ids.entities[0]], id);
    RetiredAfter(Replay(s.ledger.log).hypotheses, ids.entities[0], Replay(t.ledger.log).hypotheses[ids.entities[0]],
                 id);
  }

  lemma AbsentIsNotRetired(rows: map<string, Hypothesis>, id: string)
    ensures id !in rows || rows[id].status != RETIRED <==> !IsRetired(rows, id)
  {}

  lemma RetireTracks(directory: string -> S.Auth, seen: State, s: State, step: Step, t: State, id: string)
    requires Next(directory, seen, s, step, t) && Sees(directory, seen, s) && step.action.DoRetire? && t != s
    ensures Tracks(seen, s, step, t, id)
  {
    hide S.AppendMany, Replay, Mirror, Later, Alive, Historic, Onward, FreshIds, IsRetired, RowsFit, MovesOn, Begun;
    DrawnIds(directory, s, step.ids);
    var drafts := RetirementDrafts(seen, step.action.auth, step.action.hypothesisId, step.action.reason, step.ids,
                                   step.now);
    AppendManyAppends(s.ledger, drafts);
    ReplayOfOne(s.ledger, drafts, t.ledger);
    RowSeen(directory, seen, s, step.action.hypothesisId);
    RetiredAfter(s.tables.hypotheses, step.action.hypothesisId, t.tables.hypotheses[step.action.hypothesisId], id);
    RetiredAfter(Replay(s.ledger.log).hypotheses, step.action.hypothesisId,
                 Replay(t.ledger.log).hypotheses[step.action.hypothesisId], id);
  }

  /** A committed activation finds its hypothesis at version one, so not retired, live or in the log. */
  lemma ActivateTracks(directory: string -> S.Auth, seen: State, s: State, step: Step, t: State, id: string)
    requires Next(directory, seen, s, step, t) && Sees(directory, seen, s) && step.action.DoActivate? && t != s
    ensures Tracks(seen, s, step, t, id)
  {
    hide S.AppendMany, Replay, Mirror, Later, Alive, Historic, Onward, FreshIds, IsRetired, MovesOn, ActivationDrafts,
        LatestVersion;
    DrawnIds(directory, s, step.ids);
    var ids, auth, now, it := step.ids, step.action.auth, step.now, step.action.hypothesisId;
    ActivationIsSecond(directory, seen, s, auth, it, step.action.parameters, ids, now);
    AppendManyAppends(s.ledger, ActivationDrafts(auth, 2, it, step.action.parameters, ids, now));
    RowSeen(directory, seen, s, it);
    SeenKey(directory, seen, auth, it);
    var g, y := ActivationReplay(s.ledger, auth, 2, it, step.action.parameters, ids, now, t.ledger);
    AbsentIsNotRetired(s.tables.hypotheses, it);
    AbsentIsNotRetired(Replay(s.ledger.log).hypotheses, it);
    RetiredAfter(s.tables.hypotheses, it, t.tables.hypotheses[it], id);
    RetiredAfter(Replay(s.ledger.log).hypotheses, it, g, id);
  }

  lemma EvaluateTracks(directory: string -> S.Auth, seen: State, s: State, step: Step, t: State, id: string)
    requires Next(directory, seen, s, step, t) && Sees(directory, seen, s) && step.action.DoEvaluate? && t != s
    ensures Tracks(seen, s, step, t, id)
    ensures EvaluatesIt(seen, s, step, t, id) ==>
              id in t.tables.hypotheses && t.tables.hypotheses[id].status in {OBSERVING, EVALUATED}
  {
    hide S.AppendMany, Replay, Mirror, Later, Alive, Historic, Onward, FreshIds, IsRetired, ReadsCurrent, Evaluate,
        EvaluationDrafts, TablesAfter;
    DrawnIds(directory, s, step.ids);
    var act, ids, now := step.action, step.ids, step.now;
    ReplayedChangesNothing(seen, act.prior, s, act.auth, act.experimentId, act.phase, act.assessment, ids, now);
    var h, c := CaseOf(seen, act.prior, s, act.auth, act.experimentId, act.phase, act.assessment, ids, now);
    CaseFinds(seen, c, act.experimentId, directory);
    EvaluationReplay(s.ledger, c, t.ledger);
    RowSeen(directory, seen, s, c.x.hypothesisId);
    CoreAfter(s, h, c);
    RetiredAfter(s.tables.hypotheses, h.id, t.tables.hypotheses[h.id], id);
  }

  lemma OthersTrack(directory: string -> S.Auth, seen: State, s: State, step: Step, t: State, id: string)
    requires Next(directory, seen, s, step, t) && Sees(directory, seen, s)
    requires t == s || step.action.DoRebuild? || step.action.DoOther? || step.action.SetHead? || step.action.SkipTo?
    ensures Tracks(seen, s, step, t, id)
  {
    hide S.AppendMany, Replay, Mirror, Later, Alive, Historic, Onward, FreshIds, IsRetired, ReadsCurrent, Evaluate,
        Activate, Propose, Retire,
         Rebuild, ListsBeliefs;
    DrawnIds(directory, s, step.ids);
    if t == s { return; }
    match step.action
    case DoRebuild(order) => RebuildMirrors(directory, s, order, step.ids, step.now);
    case DoOther(drafts) =>
      AppendManyAppends(s.ledger, drafts);
      ReplayIgnores(s.ledger, drafts, t.ledger);
    case SetHead(_, _, _) =>
    case SkipTo(_) =>
  }

  lemma StepTracks(directory: string -> S.Auth, trace: seq<State>, steps: seq<Step>, i: nat, id: string)
    requires Run(directory, trace, steps) && i < |steps|
    ensures Tracks(trace[steps[i].since], trace[i], steps[i], trace[i + 1], id)
  {
    hide Next, Tracks, Sees, RetiresIt, Rebuilds, EvaluatesIt;
    var seen, s, step, t := trace[steps[i].since], trace[i], steps[i], trace[i + 1];
    assert Next(directory, seen, s, step, t);
    HistoricThroughout(directory, trace, steps, steps[i].since, i);
    if t == s {
      OthersTrack(directory, seen, s, step, t, id);
    } else {
      match step.action
      case DoPropose(_, _, _) => ProposeTracks(directory, seen, s, step, t, id);
      case DoActivate(_, _, _) => ActivateTracks(directory, seen, s, step, t, id);
      case DoRetire(_, _, _) => RetireTracks(directory, seen, s, step, t, id);
      case DoEvaluate(_, _, _, _, _) => EvaluateTracks(directory, seen, s, step, t, id);
      case _ => OthersTrack(directory, seen, s, step, t, id);
    }
  }

  // ---- over runs ----------------------------------------------------------------------------

  ghost predicate EvaluatesAt(trace: seq<State>, steps: seq<Step>, m: nat, id: string)
    requires |trace| == |steps| + 1 && m < |steps| && steps[m].since <= m
  {
    EvaluatesIt(trace[steps[m].since], trace[m], steps[m], trace[m + 1], id)
  }

  predicate RetiresAt(trace: seq<State>, steps: seq<Step>, m: nat, id: string)
    requires |trace| == |steps| + 1 && m < |steps|
  {
    RetiresIt(trace[m], steps[m], trace[m + 1], id)
  }

  predicate RebuildsAt(trace: seq<State>, steps: seq<Step>, m: nat)
    requires |trace| == |steps| + 1 && m < |steps|
  {
    Rebuilds(trace[m], steps[m], trace[m + 1])
  }

  /**
   * Nothing but an evaluation of one of its experiments takes a hypothesis out of RETIRED, and every
   * committed one does, leaving it observing or evaluated while the log still has it retired.
   */
  lemma RetiredIsLeftExactly(directory: string -> S.Auth, trace: seq<State>, steps: seq<Step>, i: nat, id: string)
    requires Run(directory, trace, steps) && i < |steps| && IsRetired(trace[i].tables.hypotheses, id)
    ensures !IsRetired(trace[i + 1].tables.hypotheses, id) <==> EvaluatesAt(trace, steps, i, id)
    ensures EvaluatesAt(trace, steps, i, id) ==>
              && id in trace[i + 1].tables.hypotheses
                 && trace[i + 1].tables.hypotheses[id].status in {OBSERVING, EVALUATED}
              && IsRetired(Replay(trace[i + 1].ledger.log).hypotheses, id)
  {
    hide Replay, Mirror, Later, Alive, Onward, Next;
    var seen, s, step, t := trace[steps[i].since], trace[i], steps[i], trace[i + 1];
    HistoricThroughout(directory, trace, steps, steps[i].since, i);
    StepTracks(directory, trace, steps, i, id);
    if EvaluatesAt(trace, steps, i, id) {
      assert Next(directory, seen, s, step, t);
      EvaluateTracks(directory, seen, s, step, t, id);
    }
  }

  ghost predicate RetiredBefore(trace: seq<State>, steps: seq<Step>, j: nat, id: string)
    requires |trace| == |steps| + 1 && j <= |steps|
  {
    exists k :: 0 <= k < j && RetiresAt(trace, steps, k, id)
  }

  lemma RetiredBeforeStep(trace: seq<State>, steps: seq<Step>, j: nat, id: string)
    requires |trace| == |steps| + 1 && j < |steps|
    ensures RetiredBefore(trace, steps, j + 1, id)
            <==> RetiredBefore(trace, steps, j, id) || RetiresAt(trace, steps, j, id)
  {
    hide RetiresIt;
  }

  /** Every committed evaluation of the hypothesis before `j` was followed by a rebuild or a retirement of it. */
  ghost predicate Restored(trace: seq<State>, steps: seq<Step>, j: nat, id: string)
    requires |trace| == |steps| + 1 && j <= |steps| && forall m :: 0 <= m < |steps| ==> steps[m].since <= m
  {
    forall m :: 0 <= m < j && EvaluatesAt(trace, steps, m, id) ==>
      exists k :: m < k < j && (RebuildsAt(trace, steps, k) || RetiresAt(trace, steps, k, id))
  }

  lemma RestoredStep(directory: string -> S.Auth, trace: seq<State>, steps: seq<Step>, j: nat, id: string)
    requires Run(directory, trace, steps) && j < |steps|
    ensures Restored(trace, steps, j + 1, id) <==>
            && !EvaluatesAt(trace, steps, j, id)
            && (RebuildsAt(trace, steps, j) || RetiresAt(trace, steps, j, id) || Restored(trace, steps, j, id))
  {
    hide Next;
    if RebuildsAt(trace, steps, j) || RetiresAt(trace, steps, j, id) {
    } else if !EvaluatesAt(trace, steps, j, id) && Restored(trace, steps, j, id) {
      forall m | 0 <= m < j + 1 && EvaluatesAt(trace, steps, m, id)
        ensures exists k :: m < k < j + 1 && (RebuildsAt(trace, steps, k) || RetiresAt(trace, steps, k, id))
      {
        var k :| m < k < j && (RebuildsAt(trace, steps, k) || RetiresAt(trace, steps, k, id));
        assert m < k < j + 1;
      }
    }
  }

  /**
   * In every run the log has a hypothesis retired exactly from its first committed retirement on, and
   * the live row says so exactly when, besides, every evaluation of it was followed by a rebuild or
   * another retirement.
   */
  lemma {:induction false} RetiredExactly(directory: string -> S.Auth, trace: seq<State>, steps: seq<Step>, j: nat,
                                          id: string)
    requires Run(directory, trace, steps) && j < |trace|
    ensures IsRetired(Replay(trace[j].ledger.log).hypotheses, id) <==> RetiredBefore(trace, steps, j, id)
    ensures IsRetired(trace[j].tables.hypotheses, id) <==>
            IsRetired(Replay(trace[j].ledger.log).hypotheses, id) && Restored(trace, steps, j, id)
  {
    if j > 0 {
      hide Replay, Next, IsRetired, Restored, RetiredBefore, RetiresIt, EvaluatesIt, Rebuilds;
      RetiredExactly(directory, trace, steps, j - 1, id);
      StepTracks(directory, trace, steps, j - 1, id);
      RestoredStep(directory, trace, steps, j - 1, id);
      RetiredBeforeStep(trace, steps, j - 1, id);
    }
  }

  /**
   * A retired hypothesis stays retired through a stretch of a run exactly when no evaluation of it that
   * read before the stretch commits within it; so it does wherever transactions are atomic.
   */
  lemma {:induction false} RetiredIsAbsorbing(directory: string -> S.Auth, trace: seq<State>, steps: seq<Step>, i: nat,
                                              j: nat, id: string)
    requires Run(directory, trace, steps) && i <= j < |trace| && IsRetired(trace[i].tables.hypotheses, id)
    ensures (forall n :: i <= n <= j ==> IsRetired(trace[n].tables.hypotheses, id)) <==>
            (forall m :: i <= m < j && EvaluatesAt(trace, steps, m, id) ==> i <= steps[m].since)
    decreases j
  {
    hide Next, IsRetired, EvaluatesIt;
    if i < j {
      RetiredIsAbsorbing(directory, trace, steps, i, j - 1, id);
      if forall n :: i <= n <= j - 1 ==> IsRetired(trace[n].tables.hypotheses, id) {
        RetiredIsLeftExactly(directory, trace, steps, j - 1, id);
        if EvaluatesAt(trace, steps, j - 1, id) { EvaluationSawItLive(directory, trace, steps, j - 1, id); }
      }
    }
  }

  /** A committed evaluation saw its hypothesis not retired. */
  lemma EvaluationSawItLive(directory: string -> S.Auth, trace: seq<State>, steps: seq<Step>, m: nat, id: string)
    requires Run(directory, trace, steps) && m < |steps| && EvaluatesAt(trace, steps, m, id)
    ensures !IsRetired(trace[steps[m].since].tables.hypotheses, id)
  {
    hide S.AppendMany, EvaluatedTables, EvaluationDrafts, FreshIds, ReadsCurrent, FingerprintTaken;
    assert Next(directory, trace[steps[m].since], trace[m], steps[m], trace[m + 1]);
    assert |steps[m].ids.entities| >= 4 by { HasDrawn(trace[m], steps[m].ids); }
  }

  /** Over atomic runs, rebuilds included, live rows and replay agree on who is retired. */
  lemma AtomicRunsAgree(directory: string -> S.Auth, trace: seq<State>, steps: seq<Step>, j: nat, id: string)
    requires Run(directory, trace, steps) && Atomic(steps) && j < |trace|
    ensures IsRetired(trace[j].tables.hypotheses, id) <==> IsRetired(Replay(trace[j].ledger.log).hypotheses, id)
  {
    hide Next, IsRetired, RetiresIt, EvaluatesIt, Replay, Restored;
    RetiredExactly(directory, trace, steps, j, id);
    if k :| 0 <= k < j && RetiresAt(trace, steps, k, id) {
      StepTracks(directory, trace, steps, k, id);
      RetirementIsNoEvaluation(trace, steps, k, id);
      RetiredIsAbsorbing(directory, trace, steps, k + 1, j, id);
    }
  }

  lemma RetirementIsNoEvaluation(trace: seq<State>, steps: seq<Step>, k: nat, id: string)
    requires |trace| == |steps| + 1 && k < |steps| && steps[k].since <= k && RetiresAt(trace, steps, k, id)
    ensures !EvaluatesAt(trace, steps, k, id)
  {}
}
