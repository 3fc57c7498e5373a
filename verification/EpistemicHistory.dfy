/** What the row of a hypothesis tells about its history in the log, however stale the transactions that write it. */
module EpistemicHistory {
  import opened Common
  import opened Ledger
  import S = Submission
  import opened Epistemic
  import opened EpistemicRuns
  import opened EpistemicMirror
  import opened EpistemicTheorems
  import opened EpistemicLifecycle

  /** What proposal and activation fix. */
  predicate SameTerms(h: Hypothesis, g: Hypothesis) {
    && h.humanConfirmed == g.humanConfirmed && h.parameters == g.parameters && h.proposedAt == g.proposedAt
    && h.activatedAt == g.activatedAt && h.experimentId == g.experimentId
  }

  /** How many events the log holds on the hypothesis. */
  function Version(h: Hypothesis, log: seq<EngineEvent>): nat { LatestVersion(log, HypothesisAggregate(h.key, h.id)) }

  /** A row has a proposal behind it, and more once it is past that. */
  predicate Begun(h: Hypothesis, log: seq<EngineEvent>) {
    Version(h, log) >= 1 && (h.status != PROPOSED || h.experimentId.Some? ==> Version(h, log) >= 2)
  }

  /** Live and replayed row of one hypothesis: the same terms, and a retirement known live is known to the log. */
  predicate RowsFit(live: Hypothesis, replayed: Hypothesis, log: seq<EngineEvent>) {
    && Begun(live, log) && Begun(replayed, log) && SameTerms(live, replayed)
    && (live.status == RETIRED ==> replayed.status == RETIRED)
  }

  predicate HasExperiment(t: Tables, hypothesisId: string) {
    hypothesisId in t.hypotheses && t.hypotheses[hypothesisId].experimentId.Some?
  }

  ghost predicate Historic(s: State) {
    && (forall id :: id in s.tables.hypotheses ==>
          id in Replay(s.ledger.log).hypotheses
          && RowsFit(s.tables.hypotheses[id], Replay(s.ledger.log).hypotheses[id], s.ledger.log))
    && (forall id :: id in s.tables.experiments ==> HasExperiment(s.tables, s.tables.experiments[id].hypothesisId))
  }

  /** The terms of a row change only with its activation, and that only with its version. */
  predicate MovesOn(h: Hypothesis, log: seq<EngineEvent>, g: Hypothesis, log': seq<EngineEvent>) {
    && Version(h, log) <= Version(g, log') && h.proposedAt == g.proposedAt
    && (SameTerms(h, g) || (h.experimentId.None? && Version(h, log) < Version(g, log')))
  }

  ghost predicate Onward(a: State, b: State) {
    forall id :: id in a.tables.hypotheses ==>
      id in b.tables.hypotheses && MovesOn(a.tables.hypotheses[id], a.ledger.log, b.tables.hypotheses[id], b.ledger.log)
  }

  lemma OnwardChains(a: State, b: State, c: State)
    requires Onward(a, b) && Onward(b, c)
    ensures Onward(a, c)
  {
    hide Version;
  }

  lemma {:induction false} LatestGrows(log: seq<EngineEvent>, more: seq<EngineEvent>, a: Aggregate)
    requires log <= more
    ensures LatestVersion(log, a) <= LatestVersion(more, a)
  {
    if |log| == |more| {
      assert log == more;
    } else {
      LatestGrows(log, more[..|more| - 1], a);
    }
  }

  // ---- changes of rows ----------------------------------------------------------------------

  lemma FitsLater(live: Hypothesis, replayed: Hypothesis, log: seq<EngineEvent>, more: seq<EngineEvent>)
    requires RowsFit(live, replayed, log) && log <= more
    ensures RowsFit(live, replayed, more) && MovesOn(live, log, live, more)
  {
    LatestGrows(log, more, HypothesisAggregate(live.key, live.id));
    LatestGrows(log, more, HypothesisAggregate(replayed.key, replayed.id));
  }

  /** One hypothesis written on both sides; experiments stay with their hypotheses or join this one. */
  lemma RowWritten(s: State, t: State, id: string, h: Hypothesis, g: Hypothesis)
    requires Historic(s) && s.ledger.log <= t.ledger.log && RowsFit(h, g, t.ledger.log)
    requires t.tables.hypotheses == s.tables.hypotheses[id := h]
    requires Replay(t.ledger.log).hypotheses == Replay(s.ledger.log).hypotheses[id := g]
    requires id in s.tables.hypotheses ==> MovesOn(s.tables.hypotheses[id], s.ledger.log, h, t.ledger.log)
    requires forall x :: x in t.tables.experiments ==> JoinsOrStays(s.tables, t.tables, x, id, h)
    ensures Historic(t) && Onward(s, t)
  {
    hide Replay, RowsFit, MovesOn;
    forall i | i in s.tables.hypotheses && i != id
      ensures RowsFit(s.tables.hypotheses[i], Replay(s.ledger.log).hypotheses[i], t.ledger.log)
      ensures MovesOn(s.tables.hypotheses[i], s.ledger.log, s.tables.hypotheses[i], t.ledger.log)
    {
      FitsLater(s.tables.hypotheses[i], Replay(s.ledger.log).hypotheses[i], s.ledger.log, t.ledger.log);
    }
    forall x | x in t.tables.experiments ensures HasExperiment(t.tables, t.tables.experiments[x].hypothesisId) {
      assert JoinsOrStays(s.tables, t.tables, x, id, h);
      if id in s.tables.hypotheses { ExperimentStays(s.tables.hypotheses[id], s.ledger.log, h, t.ledger.log); }
    }
  }

  predicate JoinsOrStays(before: Tables, after: Tables, x: string, id: string, h: Hypothesis)
    requires x in after.experiments
  {
    || (x in before.experiments && after.experiments[x].hypothesisId == before.experiments[x].hypothesisId)
    || (after.experiments[x].hypothesisId == id && h.experimentId.Some?)
  }

  lemma ExperimentStays(h: Hypothesis, log: seq<EngineEvent>, g: Hypothesis, log': seq<EngineEvent>)
    requires MovesOn(h, log, g, log')
    ensures h.experimentId.Some? ==> g.experimentId.Some?
  {}

  /** Rows as they were, over a longer log. */
  lemma RowsKept(s: State, t: State)
    requires Historic(s) && s.ledger.log <= t.ledger.log && t.tables == s.tables
    requires Replay(t.ledger.log).hypotheses == Replay(s.ledger.log).hypotheses
    ensures Historic(t) && Onward(s, t)
  {
    hide Replay, RowsFit, MovesOn;
    forall i | i in s.tables.hypotheses
      ensures RowsFit(s.tables.hypotheses[i], Replay(s.ledger.log).hypotheses[i], t.ledger.log)
      ensures MovesOn(s.tables.hypotheses[i], s.ledger.log, s.tables.hypotheses[i], t.ledger.log)
    {
      FitsLater(s.tables.hypotheses[i], Replay(s.ledger.log).hypotheses[i], s.ledger.log, t.ledger.log);
    }
  }

  /** Rows taken from the replay. */
  lemma RowsRebuilt(directory: string -> S.Auth, s: State, t: State)
    requires Historic(s) && Mirror(directory, s) && s.ledger.log <= t.ledger.log
    requires t.tables == Replay(s.ledger.log) == Replay(t.ledger.log)
    ensures Historic(t) && Onward(s, t)
  {
    hide Replay, RowsFit, MovesOn, Ranked, Owned;
    var replayed := Replay(s.ledger.log);
    forall i | i in s.tables.hypotheses
      ensures RowsFit(replayed.hypotheses[i], replayed.hypotheses[i], t.ledger.log)
      ensures MovesOn(s.tables.hypotheses[i], s.ledger.log, replayed.hypotheses[i], t.ledger.log)
      ensures s.tables.hypotheses[i].experimentId == replayed.hypotheses[i].experimentId
    {
      RowRebuilt(s.tables.hypotheses[i], replayed.hypotheses[i], s.ledger.log, t.ledger.log);
    }
  }

  lemma RowRebuilt(live: Hypothesis, replayed: Hypothesis, log: seq<EngineEvent>, more: seq<EngineEvent>)
    requires RowsFit(live, replayed, log) && log <= more && live.id == replayed.id && live.key == replayed.key
    ensures RowsFit(replayed, replayed, more) && MovesOn(live, log, replayed, more)
    ensures live.experimentId == replayed.experimentId
  {
    FitsLater(live, replayed, log, more);
  }

  // ---- each transaction ---------------------------------------------------------------------

  /** Both states of a transaction: what it saw and what it committed onto. */
  ghost predicate Sees(directory: string -> S.Auth, seen: State, s: State) {
    && Mirror(directory, seen) && Mirror(directory, s) && Later(seen, s)
    && Alive(seen) && Alive(s) && Historic(seen) && Historic(s) && Onward(seen, s)
  }

  /** The row seen against the rows found. */
  lemma RowSeen(directory: string -> S.Auth, seen: State, s: State, id: string)
    requires Sees(directory, seen, s) && id in seen.tables.hypotheses
    ensures id in s.tables.hypotheses && id in Replay(s.ledger.log).hypotheses
            && id in Replay(seen.ledger.log).hypotheses
    ensures var h, l, g := seen.tables.hypotheses[id], s.tables.hypotheses[id], Replay(s.ledger.log).hypotheses[id];
            && h.id == l.id == g.id == id && h.key == l.key == g.key
            && RowsFit(l, g, s.ledger.log) && MovesOn(h, seen.ledger.log, l, s.ledger.log)
            && Begun(h, seen.ledger.log)
  {
    hide Replay, Alive, Mirror, Later, MovesOn;
    SeenHypothesis(directory, seen, s, id);
  }

  lemma ProposeHistoric(s: State, auth: S.Auth, proposed: Option<Parameters>, confirmed: bool, ids: Ids, now: Time)
    requires Historic(s) && |ids.entities| >= 1 && |ids.events| >= 1 && Unused(s.tables, ids.entities[0])
    requires Propose(s, auth, proposed, confirmed, ids, now).Ok?
    ensures var t := Propose(s, auth, proposed, confirmed, ids, now).value; Historic(t) && Onward(s, t)
  {
    hide S.AppendMany, Replay, LatestVersion, Historic;
    var id := ids.entities[0];
    var t := Propose(s, auth, proposed, confirmed, ids, now).value;
    var drafts := [DraftFor(auth, HypothesisProposed, "Hypothesis", id, 1, ProposalPayload(id, proposed, confirmed),
                            ids.events[0], ids.auditId, ids.requestId, Some(ids.key), now)];
    AppendManyAppends(s.ledger, drafts);
    FirstDraftIsNext(s.ledger, drafts);
    LatestOfOne(s.ledger, drafts, t.ledger);
    ReplayOfOne(s.ledger, drafts, t.ledger);
    var e := t.ledger.log[|s.ledger.log|];
    assert IsDraft(e, drafts[0], s.ledger.next);
    RowWritten(s, t, id, t.tables.hypotheses[id], OnProposed(NO_ROWS, e).hypotheses[id]);
  }

  /**
   * A retirement carries the version after the one its reader saw, so nothing was recorded on the hypothesis
   * in between.
   */
  lemma RetirementIsNext(directory: string -> S.Auth, seen: State, s: State, auth: S.Auth, id: string, reason: string,
                         ids: Ids, now: Time)
    requires Sees(directory, seen, s) && directory(auth.applicationId) == auth && |ids.events| >= 1
    requires Retire(seen, NextVersion(seen, auth, "Hypothesis", id), s, auth, id, reason, ids, now).Ok?
    ensures id in seen.tables.hypotheses && id in s.tables.hypotheses && id in Replay(s.ledger.log).hypotheses
    ensures seen.tables.hypotheses[id].key == auth.Key()
            && FindHypothesis(seen.tables, auth, id) == Some(seen.tables.hypotheses[id])
    ensures SameTerms(seen.tables.hypotheses[id], s.tables.hypotheses[id])
    ensures var h, t := seen.tables.hypotheses[id], Retire(seen, NextVersion(seen, auth, "Hypothesis", id), s, auth, id,
                                                           reason, ids, now).value;
            LatestVersion(t.ledger.log, HypothesisAggregate(auth.Key(), id)) >= 2
  {
    hide S.AppendMany, Replay, LatestVersion, Alive, Mirror, Later, Historic, Onward;
    var drafts := RetirementDrafts(seen, auth, id, reason, ids, now);
    AppendManyAppends(s.ledger, drafts);
    FirstDraftIsNext(s.ledger, drafts);
    var t := Retire(seen, NextVersion(seen, auth, "Hypothesis", id), s, auth, id, reason, ids, now).value;
    LatestOfOne(s.ledger, drafts, t.ledger);
    SeenKey(directory, seen, auth, id);
    RowSeen(directory, seen, s, id);
  }

  function RetirementDrafts(seen: State, auth: S.Auth, id: string, reason: string, ids: Ids, now: Time): seq<Draft>
    requires |ids.events| >= 1
  {
    [DraftFor(auth, HypothesisRetired, "Hypothesis", id, NextVersion(seen, auth, "Hypothesis", id),
              RetirementPayload(id, reason), ids.events[0], ids.auditId, ids.requestId, Some(ids.key), now)]
  }

  lemma RetireHistoric(directory: string -> S.Auth, seen: State, s: State, auth: S.Auth, id: string, reason: string,
                       ids: Ids, now: Time)
    requires Sees(directory, seen, s) && directory(auth.applicationId) == auth && |ids.events| >= 1
    requires Retire(seen, NextVersion(seen, auth, "Hypothesis", id), s, auth, id, reason, ids, now).Ok?
    ensures var t := Retire(seen, NextVersion(seen, auth, "Hypothesis", id), s, auth, id, reason, ids, now).value;
            Historic(t) && Onward(s, t)
  {
    hide S.AppendMany, Replay, LatestVersion, Alive, Mirror, Later, Historic, Onward;
    var t := Retire(seen, NextVersion(seen, auth, "Hypothesis", id), s, auth, id, reason, ids, now).value;
    var drafts := RetirementDrafts(seen, auth, id, reason, ids, now);
    AppendManyAppends(s.ledger, drafts);
    ReplayOfOne(s.ledger, drafts, t.ledger);
    RetirementIsNext(directory, seen, s, auth, id, reason, ids, now);
    RowSeen(directory, seen, s, id);
    var e := t.ledger.log[|s.ledger.log|];
    FitsLater(s.tables.hypotheses[id], Replay(s.ledger.log).hypotheses[id], s.ledger.log, t.ledger.log);
    RowWritten(s, t, id, t.tables.hypotheses[id], OnRetired(Replay(s.ledger.log), e).hypotheses[id]);
  }

  lemma ActivateHistoric(directory: string -> S.Auth, seen: State, s: State, auth: S.Auth, id: string, p: Parameters,
                         ids: Ids, now: Time)
    requires Sees(directory, seen, s) && directory(auth.applicationId) == auth && |ids.entities| >= 1
             && |ids.events| >= 3
    requires Activate(seen, NextVersion(seen, auth, "Hypothesis", id), s, auth, id, p, ids, now).Ok?
    ensures var t := Activate(seen, NextVersion(seen, auth, "Hypothesis", id), s, auth, id, p, ids, now).value;
            Historic(t) && Onward(s, t)
  {
    hide S.AppendMany, Replay, LatestVersion, Alive, Mirror, Later, Historic, Onward, ActivationDrafts;
    ActivationIsSecond(directory, seen, s, auth, id, p, ids, now);
    var t := Activate(seen, 2, s, auth, id, p, ids, now).value;
    var drafts := ActivationDrafts(auth, 2, id, p, ids, now);
    AppendManyAppends(s.ledger, drafts);
    RowSeen(directory, seen, s, id);
    SeenKey(directory, seen, auth, id);
    var g, y := ActivationReplay(s.ledger, auth, 2, id, p, ids, now, t.ledger);
    SecondVersion(s.ledger, auth, id, p, ids, now, t.ledger);
    RowWritten(s, t, id, t.tables.hypotheses[id], g);
  }

  lemma SecondVersion(before: Ledger, auth: S.Auth, id: string, p: Parameters, ids: Ids, now: Time, after: Ledger)
    requires |ids.entities| >= 1 && |ids.events| >= 3
             && Appended(before, ActivationDrafts(auth, 2, id, p, ids, now), after)
    ensures LatestVersion(after.log, HypothesisAggregate(auth.Key(), id)) >= 2
  {
    assert IsDraft(after.log[|before.log| + 0], ActivationDrafts(auth, 2, id, p, ids, now)[0], before.next + 0);
    LatestBounds(after.log, |before.log|);
  }

  lemma EvaluateHistoric(directory: string -> S.Auth, seen: State, s: State, h: Hypothesis, c: Case, t: State)
    requires Sees(directory, seen, s) && c.Valid()
    requires FindExperiment(seen.tables, c.auth, c.x.id) == Some(c.x)
             && FindHypothesis(seen.tables, c.auth, c.x.hypothesisId) == Some(h)
    requires Appended(s.ledger, c.Drafts(), t.ledger) && t.tables == TablesAfter(s, h, c)
    ensures Historic(t) && Onward(s, t)
  {
    hide Replay, LatestVersion, Alive, Mirror, Later, Historic, Onward, EvaluationDrafts, TablesAfter;
    var id := c.x.hypothesisId;
    EvaluationReplay(s.ledger, c, t.ledger);
    RowSeen(directory, seen, s, id);
    ExperimentSeen(seen, c.x.id);
    SeenExperiment(directory, seen, s, c.x.id);
    CoreAfter(s, h, c);
    var g := Replay(s.ledger.log).hypotheses[id];
    FitsLater(s.tables.hypotheses[id], g, s.ledger.log, t.ledger.log);
    assert Replay(t.ledger.log).hypotheses == Replay(s.ledger.log).hypotheses[id := g];
    RowWritten(s, t, id, t.tables.hypotheses[id], g);
  }

  lemma ExperimentSeen(s: State, id: string)
    requires Historic(s) && id in s.tables.experiments
    ensures HasExperiment(s.tables, s.tables.experiments[id].hypothesisId)
  {
    hide Replay;
  }

  /** The hypothesis and experiment rows an evaluation writes. */
  lemma CoreAfter(s: State, h: Hypothesis, c: Case)
    requires c.Valid()
    ensures var t := TablesAfter(s, h, c);
            && h.id in t.hypotheses && t.hypotheses == s.tables.hypotheses[h.id := t.hypotheses[h.id]]
            && SameTerms(t.hypotheses[h.id], h) && t.hypotheses[h.id].id == h.id && t.hypotheses[h.id].key == h.key
            && t.hypotheses[h.id].status == (if c.d.terminal then EVALUATED else OBSERVING)
            && c.x.id in t.experiments && t.experiments == s.tables.experiments[c.x.id := t.experiments[c.x.id]]
            && t.experiments[c.x.id].hypothesisId == c.x.hypothesisId && t.experiments[c.x.id].anchor == c.x.anchor
  {
    hide UpsertBelief, AppendLearning, EvidenceRow, BeliefRow, LearningRow, ExperimentStatus;
  }

  lemma StepHistoric(directory: string -> S.Auth, seen: State, s: State, step: Step, t: State)
    requires Next(directory, seen, s, step, t) && Sees(directory, seen, s)
    ensures Historic(t) && Onward(s, t)
  {
    hide Historic, Onward, Alive, Mirror, Later, Replay, Propose, Activate, Retire, Evaluate, Rebuild, S.AppendMany,
        ReadsCurrent, FreshIds, ListsBeliefs;
    var ids, now := step.ids, step.now;
    DrawnIds(directory, s, ids);
    if t == s { RowsKept(s, s); return; }
    match step.action
    case DoPropose(auth, proposed, confirmed) => ProposeHistoric(s, auth, proposed, confirmed, ids, now);
    case DoActivate(auth, id, p) => ActivateHistoric(directory, seen, s, auth, id, p, ids, now);
    case DoRetire(auth, id, reason) => RetireHistoric(directory, seen, s, auth, id, reason, ids, now);
    case DoEvaluate(auth, experimentId, phase, a, prior) =>
      ReplayedChangesNothing(seen, prior, s, auth, experimentId, phase, a, ids, now);
      var h, c := CaseOf(seen, prior, s, auth, experimentId, phase, a, ids, now);
      CaseFinds(seen, c, experimentId, directory);
      EvaluateHistoric(directory, seen, s, h, c, t);
    case DoRebuild(order) =>
      RebuildMirrors(directory, s, order, ids, now);
      RebuildLogs(s, order, ids, now);
      RowsRebuilt(directory, s, t);
    case DoOther(drafts) =>
      AppendManyAppends(s.ledger, drafts);
      ReplayIgnores(s.ledger, drafts, t.ledger);
      RowsKept(s, t);
    case SetHead(_, _, _) => RowsKept(s, t);
    case SkipTo(_) => RowsKept(s, t);
  }

  lemma RebuildLogs(s: State, order: seq<Belief>, ids: Ids, now: Time)
    requires |ids.events| >= 1 && Rebuild(s, order, ids, now).Ok?
    ensures s.ledger.log <= Rebuild(s, order, ids, now).value.ledger.log
  {
    hide Replay, WriteAll, LatestVersion, HasEventId, KeyTaken;
  }

  lemma OnwardItself(s: State)
    ensures Onward(s, s)
  {}

  lemma NothingHistoric()
    ensures Historic(State(EMPTY, NO_ROWS))
  {}

  /** In every run, of atomic or of stale transactions, rows tell the history the log has. */
  lemma {:induction false} HistoricThroughout(directory: string -> S.Auth, trace: seq<State>, steps: seq<Step>, i: nat,
                                              j: nat)
    requires Run(directory, trace, steps) && i <= j < |trace|
    ensures Sees(directory, trace[i], trace[j])
    decreases j
  {
    hide Mirror, Later, Alive, Historic, Onward;
    MirrorThroughout(directory, trace, steps, i, j);
    AliveThroughout(directory, trace, steps, i);
    AliveThroughout(directory, trace, steps, j);
    if j == 0 {
      NothingHistoric();
      OnwardItself(trace[0]);
    } else {
      HistoricThroughout(directory, trace, steps, steps[j - 1].since, j - 1);
      StepHistoric(directory, trace[steps[j - 1].since], trace[j - 1], steps[j - 1], trace[j]);
      if i < j {
        HistoricThroughout(directory, trace, steps, i, j - 1);
        OnwardChains(trace[i], trace[j - 1], trace[j]);
      } else {
        OnwardItself(trace[j]);
      }
    }
  }

  // ---- status and version read at different moments -----------------------------------------

  /**
   * An activation whose status read saw the hypothesis proposed, with a version read at any moment:
   * it commits with the version of its status read exactly when the log still has the hypothesis
   * proposed. So a second activation commits exactly when its version was read later than its status.
   */
  lemma ActivationRepeatsExactly(directory: string -> S.Auth, seen: State, version: nat, s: State, auth: S.Auth,
                                 id: string, p: Parameters, ids: Ids, now: Time)
    requires Sees(directory, seen, s) && directory(auth.applicationId) == auth && |ids.entities| >= 1
             && |ids.events| >= 3
    requires Activate(seen, version, s, auth, id, p, ids, now).Ok?
    ensures id in Replay(s.ledger.log).hypotheses
            && version == LatestVersion(s.ledger.log, HypothesisAggregate(auth.Key(), id)) + 1
    ensures version == NextVersion(seen, auth, "Hypothesis", id) <==>
            LatestVersion(s.ledger.log, HypothesisAggregate(auth.Key(), id)) == 1
    ensures version == NextVersion(seen, auth, "Hypothesis", id) <==>
            Replay(s.ledger.log).hypotheses[id].status == PROPOSED
    ensures version == NextVersion(seen, auth, "Hypothesis", id) ==>
              forall e :: e in s.ledger.log && IsActivation(e) ==> e.material.payload.hypothesisId != id
  {
    hide S.AppendMany, Replay, LatestVersion, Mirror, Later, Historic, Onward, MovesOn, SameTerms, Stamped,
        HasActivation;
    FirstDraftIsNext(s.ledger, ActivationDrafts(auth, version, id, p, ids, now));
    SeenKey(directory, seen, auth, id);
    RowSeen(directory, seen, s, id);
    ProposedOnce(directory, seen, id);
    ProposedOnce(directory, s, id);
    if LatestVersion(s.ledger.log, HypothesisAggregate(auth.Key(), id)) == 1 {
      forall e | e in s.ledger.log && IsActivation(e) ensures e.material.payload.hypothesisId != id {
        ActivationCounts(s, e);
      }
    }
  }

  lemma ProposedOnce(directory: string -> S.Auth, s: State, id: string)
    requires Alive(s) && Mirror(directory, s) && id in s.tables.hypotheses
    ensures s.tables.hypotheses[id].status == PROPOSED ==>
              LatestVersion(s.ledger.log, HypothesisAggregate(s.tables.hypotheses[id].key, id)) == 1
    ensures id in Replay(s.ledger.log).hypotheses
            && Replay(s.ledger.log).hypotheses[id].key == s.tables.hypotheses[id].key
    ensures Replay(s.ledger.log).hypotheses[id].status == PROPOSED ==>
              LatestVersion(s.ledger.log, HypothesisAggregate(s.tables.hypotheses[id].key, id)) == 1
  {
    hide Replay, LatestVersion, Ranked, Owned;
  }

  lemma ActivationCounts(s: State, e: EngineEvent)
    requires Alive(s) && e in s.ledger.log && IsActivation(e)
    ensures var id := e.material.payload.hypothesisId;
            id in s.tables.hypotheses
            && LatestVersion(s.ledger.log, HypothesisAggregate(s.tables.hypotheses[id].key, id)) >= 2
  {
    hide Replay;
    assert IsSecondEvent(s.tables.hypotheses, e);
    var i :| 0 <= i < |s.ledger.log| && s.ledger.log[i] == e;
    LatestBounds(s.ledger.log, i);
  }
}
