/** What every run of the epistemic loop keeps. */
module EpistemicTheorems {
  import opened Common
  import opened Ledger
  import S = Submission
  import opened Epistemic
  import opened EpistemicRuns
  import opened EpistemicMirror

  // ---- live agrees with replay --------------------------------------------------------------

  lemma CaseOf(seen: State, prior: Option<Belief>, s: State, auth: S.Auth, experimentId: string, phase: EvidencePhase,
               a: Assessment, ids: Ids, now: Time)
    returns (h: Hypothesis, c: Case)
    requires |ids.entities| >= 4 && |ids.events| >= 4
    requires Evaluate(seen, prior, s, auth, experimentId, phase, a, ids, now).Ok?
    requires !Evaluate(seen, prior, s, auth, experimentId, phase, a, ids, now).value.replayed
    ensures c.Valid() && c.auth == auth && c.phase == phase && c.a == a && c.prior == prior && c.ids == ids
            && c.now == now
    ensures FindExperiment(seen.tables, auth, experimentId) == Some(c.x)
    ensures FindHypothesis(seen.tables, auth, c.x.hypothesisId) == Some(h) && h.status != RETIRED
    ensures c.d == DecisionFor(c.x, phase, a, now)
    ensures var t := Evaluate(seen, prior, s, auth, experimentId, phase, a, ids, now).value.state;
            Appended(s.ledger, c.Drafts(), t.ledger) && t.tables == TablesAfter(s, h, c)
    ensures S.AppendMany(s.ledger, c.Drafts()).Ok?
  {
    hide EvaluatedTables, EvaluationDrafts, S.AppendMany;
    var x := FindExperiment(seen.tables, auth, experimentId).value;
    h := FindHypothesis(seen.tables, auth, x.hypothesisId).value;
    c := Case(x, auth, phase, a, DecisionFor(x, phase, a, now), prior, ids, now);
    AppendManyAppends(s.ledger, c.Drafts());
  }

  lemma LaterItself(directory: string -> S.Auth, a: State, b: State)
    requires Mirror(directory, a) && a.ledger.log <= b.ledger.log && a.ledger.next <= b.ledger.next
             && b.tables == a.tables
    ensures Later(a, b)
  {}

  lemma LaterChains(a: State, b: State, c: State)
    requires Later(a, b) && Later(b, c)
    ensures Later(a, c)
  {}

  /** Events replay ignores, and everything outside the log, leave the mirror as it is. */
  lemma IgnoredMirrors(directory: string -> S.Auth, s: State, t: State)
    requires Mirror(directory, s) && t.tables == s.tables && Replay(t.ledger.log) == Replay(s.ledger.log)
             && s.ledger.next <= t.ledger.next
    ensures Mirror(directory, t)
  {
    hide Replay, SameRows, Owned;
  }

  lemma OtherMirrors(directory: string -> S.Auth, s: State, drafts: seq<Draft>)
    requires Mirror(directory, s) && S.AppendMany(s.ledger, drafts).Ok?
             && forall d :: d in drafts ==> IsIgnored(d.material.eventType)
    ensures var t := s.(ledger := S.AppendMany(s.ledger, drafts).value); Mirror(directory, t) && Later(s, t)
  {
    hide Mirror, Replay;
    var t := s.(ledger := S.AppendMany(s.ledger, drafts).value);
    AppendManyAppends(s.ledger, drafts);
    ReplayIgnores(s.ledger, drafts, t.ledger);
    IgnoredMirrors(directory, s, t);
    LaterItself(directory, s, t);
  }

  /** Rebuilding writes exactly the replayed rows. */
  lemma RebuildMirrors(directory: string -> S.Auth, s: State, order: seq<Belief>, ids: Ids, now: Time)
    requires Mirror(directory, s) && |ids.events| >= 1 && ListsBeliefs(order, Replay(s.ledger.log).beliefs)
    requires Rebuild(s, order, ids, now).Ok?
    ensures var t := Rebuild(s, order, ids, now).value;
            Mirror(directory, t) && Later(s, t) && t.tables == Replay(s.ledger.log) == Replay(t.ledger.log)
  {
    hide Replay, Ranked, WriteAll, LatestVersion, HasEventId, KeyTaken, ListsBeliefs;
    var d := RebuildDraft(s, ids, now);
    var t := Rebuild(s, order, ids, now).value;
    RankedReadsBack(order, s.tables.beliefs, s.ledger.next);
    assert [d][..0] == [];
    assert S.AppendMany(s.ledger, [d]) == AppendOne(s.ledger, d);
    AppendManyAppends(s.ledger, [d]);
    ReplayIgnores(s.ledger, [d], t.ledger);
    RanksLater(s.tables.beliefs, s.ledger.next, t.ledger.next);
  }

  lemma StepMirrors(directory: string -> S.Auth, seen: State, s: State, step: Step, t: State)
    requires Next(directory, seen, s, step, t) && Mirror(directory, seen) && Mirror(directory, s) && Later(seen, s)
    ensures Mirror(directory, t) && Later(s, t)
  {
    hide Mirror, Later, Replay, Propose, Activate, Retire, Evaluate, Rebuild, S.AppendMany, ReadsCurrent;
    var ids, now := step.ids, step.now;
    assert Unused(s.tables, ids.entities[0]) && Unused(s.tables, ids.entities[3]);
    if t == s { LaterItself(directory, s, t); return; }
    match step.action
    case DoPropose(auth, proposed, confirmed) => ProposeMirrors(directory, s, auth, proposed, confirmed, ids, now);
    case DoActivate(auth, hypothesisId, p) =>
      ActivateMirrors(directory, seen, NextVersion(seen, auth, "Hypothesis", hypothesisId), s, auth, hypothesisId, p,
                      ids, now);
    case DoRetire(auth, hypothesisId, reason) =>
      RetireMirrors(directory, seen, NextVersion(seen, auth, "Hypothesis", hypothesisId), s, auth, hypothesisId, reason,
                    ids, now);
    case DoEvaluate(auth, experimentId, phase, a, prior) =>
      ReplayedChangesNothing(seen, prior, s, auth, experimentId, phase, a, ids, now);
      var h, c := CaseOf(seen, prior, s, auth, experimentId, phase, a, ids, now);
      EvaluateMirrors(directory, seen, s, h, c, t) by { CaseFinds(seen, c, experimentId, directory); }
    case DoRebuild(order) => RebuildMirrors(directory, s, order, ids, now);
    case DoOther(drafts) => OtherMirrors(directory, s, drafts);
    case SetHead(_, _, _) => IgnoredMirrors(directory, s, t); LaterItself(directory, s, t);
    case SkipTo(_) => IgnoredMirrors(directory, s, t); LaterItself(directory, s, t);
  }

  /** A repeated fingerprint appends nothing and writes nothing. */
  lemma ReplayedChangesNothing(seen: State, prior: Option<Belief>, s: State, auth: S.Auth, experimentId: string,
                               phase: EvidencePhase,
                               a: Assessment, ids: Ids, now: Time)
    requires |ids.entities| >= 4 && |ids.events| >= 4
    ensures var r := Evaluate(seen, prior, s, auth, experimentId, phase, a, ids, now);
            && (r.Ok? && r.value.replayed ==> r.value.state == s)
            && (r.Ok? ==> (r.value.replayed <==> FingerprintTaken(seen.tables, auth, experimentId, phase, a.fingerprint)
                                                 || FingerprintTaken(s.tables, auth, experimentId, phase,
                                                                     a.fingerprint)))
  {
    hide EvaluatedTables, EvaluationDrafts, S.AppendMany, FingerprintTaken;
  }

  lemma CaseFinds(seen: State, c: Case, experimentId: string, directory: string -> S.Auth)
    requires FindExperiment(seen.tables, c.auth, experimentId) == Some(c.x) && Mirror(directory, seen)
    ensures c.x.id == experimentId
  {}

  /** In every run, of atomic or of stale transactions, the live rows mirror a replay of the log. */
  lemma {:induction false} MirrorThroughout(directory: string -> S.Auth, trace: seq<State>, steps: seq<Step>, i: nat,
                                            j: nat)
    requires Run(directory, trace, steps) && i <= j < |trace|
    ensures Mirror(directory, trace[i]) && Mirror(directory, trace[j]) && Later(trace[i], trace[j])
    decreases j
  {
    hide Mirror, Later;
    if j == 0 {
      NothingMirrors(directory);
      LaterItself(directory, trace[0], trace[0]);
    } else {
      var seen := steps[j - 1].since;
      MirrorThroughout(directory, trace, steps, seen, j - 1);
      StepMirrors(directory, trace[seen], trace[j - 1], steps[j - 1], trace[j]);
      if i < j {
        MirrorThroughout(directory, trace, steps, i, j - 1);
        LaterChains(trace[i], trace[j - 1], trace[j]);
      } else {
        LaterItself(directory, trace[j], trace[j]);
      }
    }
  }

  lemma NothingMirrors(directory: string -> S.Auth)
    ensures Mirror(directory, State(EMPTY, NO_ROWS))
  {}

  /**
   * Beliefs and learning kept live equal, field by field, those replayed from the log, and writing
   * the replayed beliefs back one by one gives them again; hypotheses and experiments agree in what
   * identifies and fixes them.
   */
  lemma BeliefsAgreeWithReplay(directory: string -> S.Auth, trace: seq<State>, steps: seq<Step>, i: nat,
                               order: seq<Belief>)
    requires Run(directory, trace, steps) && i < |trace| && ListsBeliefs(order, Replay(trace[i].ledger.log).beliefs)
    ensures trace[i].tables.beliefs == Replay(trace[i].ledger.log).beliefs == WriteAll(order)
    ensures trace[i].tables.learning == Replay(trace[i].ledger.log).learning
    ensures SameRows(trace[i].tables, Replay(trace[i].ledger.log))
  {
    hide Replay, WriteAll;
    MirrorThroughout(directory, trace, steps, i, i);
    RankedReadsBack(order, trace[i].tables.beliefs, trace[i].ledger.next);
  }

  /**
   * The protocol an experiment is registered with is the one every later state holds, whatever is evaluated
   * or rebuilt.
   */
  lemma ProtocolIsFrozen(directory: string -> S.Auth, trace: seq<State>, steps: seq<Step>, i: nat, j: nat, id: string)
    requires Run(directory, trace, steps) && i <= j < |trace| && id in trace[i].tables.experiments
    ensures id in trace[j].tables.experiments
    ensures var x, y := trace[i].tables.experiments[id], trace[j].tables.experiments[id];
            x.protocol == y.protocol && x.hypothesisId == y.hypothesisId && x.key == y.key
  {
    MirrorThroughout(directory, trace, steps, i, j);
  }

  // ---- the activation anchor ----------------------------------------------------------------

  /** Live anchors an experiment at its activation, replay at its registration: the next position, the same time. */
  lemma ReplayAnchorsOneLater(seen: State, version: nat, s: State, auth: S.Auth, id: string, p: Parameters, ids: Ids,
                              now: Time)
    requires |ids.entities| >= 1 && |ids.events| >= 3 && id in Replay(s.ledger.log).hypotheses
    requires Activate(seen, version, s, auth, id, p, ids, now).Ok?
    ensures var t := Activate(seen, version, s, auth, id, p, ids, now).value;
            var x := ids.entities[0];
            && x in t.tables.experiments && x in Replay(t.ledger.log).experiments
            && t.tables.experiments[x].anchor == Anchor(ids.events[0], s.ledger.next, now)
            && Replay(t.ledger.log).experiments[x].anchor == Anchor(ids.events[1], s.ledger.next + 1, now)
  {
    hide S.AppendMany, Replay, ActivationDrafts;
    AppendManyAppends(s.ledger, ActivationDrafts(auth, version, id, p, ids, now));
    var g, y := ActivationReplay(s.ledger, auth, version, id, p, ids, now,
                                 Activate(seen, version, s, auth, id, p, ids, now).value.ledger);
  }

  /**
   * A rebuild moves the anchor of an experiment where replay has it, an evaluation of the experiment
   * writes back the anchor it read, and nothing else touches it.
   */
  lemma AnchorMovesOnlyByRebuild(directory: string -> S.Auth, seen: State, s: State, step: Step, t: State, id: string)
    requires Next(directory, seen, s, step, t) && Mirror(directory, seen) && Mirror(directory, s) && Later(seen, s)
    requires id in s.tables.experiments
    ensures id in t.tables.experiments && id in Replay(s.ledger.log).experiments
    ensures t.tables.experiments[id].anchor ==
            if step.action.DoRebuild? && t != s then Replay(s.ledger.log).experiments[id].anchor
            else if step.action.DoEvaluate? && t != s && step.action.experimentId == id && id in seen.tables.experiments
            then seen.tables.experiments[id].anchor
            else s.tables.experiments[id].anchor
  {
    hide Mirror, Later, Replay, S.AppendMany, ReadsCurrent, ListsBeliefs, FreshIds, Evaluate, Rebuild;
    var ids, now := step.ids, step.now;
    AnchorStart(directory, s, ids, id);
    match step.action
    case DoEvaluate(auth, experimentId, phase, a, prior) =>
      if t != s { EvaluationKeepsAnchor(directory, seen, s, prior, auth, experimentId, phase, a, ids, now, id); }
    case DoRebuild(order) =>
      RebuildTakesAnchor(s, order, ids, now);
    case _ =>
  }

  lemma AnchorStart(directory: string -> S.Auth, s: State, ids: Ids, id: string)
    requires FreshIds(s, ids) && Mirror(directory, s) && id in s.tables.experiments
    ensures |ids.entities| >= 4 && |ids.events| >= 4 && ids.entities[0] != id && id in Replay(s.ledger.log).experiments
  {
    hide Replay;
    assert Unused(s.tables, ids.entities[0]);
  }

  lemma RebuildTakesAnchor(s: State, order: seq<Belief>, ids: Ids, now: Time)
    requires |ids.events| >= 1
    ensures Rebuild(s, order, ids, now).Ok? ==>
              Rebuild(s, order, ids, now).value.tables.experiments == Replay(s.ledger.log).experiments
  {
    hide Replay, AppendOne, WriteAll;
  }

  lemma EvaluationKeepsAnchor(directory: string -> S.Auth, seen: State, s: State, prior: Option<Belief>, auth: S.Auth,
                              experimentId: string,
                              phase: EvidencePhase, a: Assessment, ids: Ids, now: Time, id: string)
    requires Mirror(directory, seen) && id in s.tables.experiments && |ids.entities| >= 4 && |ids.events| >= 4
    ensures var r := Evaluate(seen, prior, s, auth, experimentId, phase, a, ids, now);
            r.Ok? && r.value.state != s ==>
              && experimentId in seen.tables.experiments && id in r.value.state.tables.experiments
              && r.value.state.tables.experiments[id].anchor ==
                 if experimentId == id then seen.tables.experiments[id].anchor else s.tables.experiments[id].anchor
  {
    hide Mirror, Replay, S.AppendMany, Evaluate, EvaluationDrafts, UpsertBelief, AppendLearning, EvidenceRow, BeliefRow,
        LearningRow;
    var r := Evaluate(seen, prior, s, auth, experimentId, phase, a, ids, now);
    ReplayedChangesNothing(seen, prior, s, auth, experimentId, phase, a, ids, now);
    if r.Ok? && !r.value.replayed {
      var h, c := CaseOf(seen, prior, s, auth, experimentId, phase, a, ids, now);
      CaseFinds(seen, c, experimentId, directory);
    }
  }

  lemma HasDrawn(s: State, ids: Ids)
    requires FreshIds(s, ids)
    ensures |ids.entities| >= 4 && |ids.events| >= 4
  {}
}
