/**
 * What each transaction of the epistemic loop records and stores, when it is refused, and what a replay makes
 * of its rows.
 */
module EpistemicRecords {
  import opened Common
  import opened Ledger
  import opened Evaluation
  import S = Submission
  import opened Epistemic
  import opened EpistemicRuns
  import opened EpistemicMirror
  import opened EpistemicTheorems
  import opened EpistemicGates
  import opened EpistemicLifecycle
  import opened EpistemicHistory
  import opened EpistemicRetirement
  import opened EpistemicVerification
  import opened EpistemicReplies

  // ---- refusals -----------------------------------------------------------------------------

  /** The row is there and belongs to the caller's owner and application. */
  predicate OwnsHypothesis(t: Tables, auth: S.Auth, id: string) {
    && id in t.hypotheses && t.hypotheses[id].key.ownerId == auth.ownerId
    && t.hypotheses[id].key.applicationId == auth.applicationId
  }

  predicate OwnsExperiment(t: Tables, auth: S.Auth, id: string) {
    && id in t.experiments && t.experiments[id].key.ownerId == auth.ownerId
    && t.experiments[id].key.applicationId == auth.applicationId
  }

  /**
   * Activating, retiring and evaluating are refused, short of a rejected event, exactly for a row that is not
   * the caller's and for a status that does not allow it: only PROPOSED is activated, and nothing RETIRED is
   * retired or evaluated.
   */
  lemma RefusalsExactly(seen: State, version: nat, prior: Option<Belief>, s: State, auth: S.Auth, id: string,
                        p: Parameters, reason: string, phase: EvidencePhase, a: Assessment, ids: Ids, now: Time)
    requires |ids.entities| >= 4 && |ids.events| >= 4
    ensures var r := Activate(seen, version, s, auth, id, p, ids, now);
            && (r == Err(HypothesisNotFound) <==> !OwnsHypothesis(seen.tables, auth, id))
            && (r == Err(HypothesisStateInvalid) <==>
                OwnsHypothesis(seen.tables, auth, id) && seen.tables.hypotheses[id].status != PROPOSED)
            && (r.Err? ==> r.error.HypothesisNotFound? || r.error.HypothesisStateInvalid? || r.error.Rejected?)
    ensures var r := Retire(seen, version, s, auth, id, reason, ids, now);
            && (r == Err(HypothesisNotFound) <==> !OwnsHypothesis(seen.tables, auth, id))
            && (r == Err(HypothesisStateInvalid) <==>
                OwnsHypothesis(seen.tables, auth, id) && seen.tables.hypotheses[id].status == RETIRED)
            && (r.Err? ==> r.error.HypothesisNotFound? || r.error.HypothesisStateInvalid? || r.error.Rejected?)
    ensures var r := Evaluate(seen, prior, s, auth, id, phase, a, ids, now);
            && (r == Err(ExperimentNotFound) <==> !OwnsExperiment(seen.tables, auth, id))
            && (r == Err(HypothesisNotFound) <==>
                && OwnsExperiment(seen.tables, auth, id)
                && !OwnsHypothesis(seen.tables, auth, seen.tables.experiments[id].hypothesisId))
            && (r == Err(HypothesisStateInvalid) <==>
                && OwnsExperiment(seen.tables, auth, id)
                && OwnsHypothesis(seen.tables, auth, seen.tables.experiments[id].hypothesisId)
                && seen.tables.hypotheses[seen.tables.experiments[id].hypothesisId].status == RETIRED)
            && (r.Err? ==> || r.error.ExperimentNotFound? || r.error.HypothesisNotFound?
                           || r.error.HypothesisStateInvalid? || r.error.Rejected?)
  {
    hide S.AppendMany, FingerprintTaken, EvaluationDrafts, ActivationDrafts, EvaluatedTables;
  }

  // ---- recorded events ----------------------------------------------------------------------

  /** The event as the use case records it for its caller: type, aggregate and version, ids, clock and key. */
  predicate Recorded(e: EngineEvent, position: nat, t: EventType, aggregateType: string, id: string, version: nat,
                     auth: S.Auth, ids: Ids, eventId: string, key: Option<string>, now: Time)
  {
    var m := e.material;
    && e.position == position && e.idempotencyKey == key && m.eventType == t && m.eventId == eventId
    && m.aggregateType == aggregateType && m.aggregateId == id && m.aggregateVersion == version
    && m.schemaVersion == "1.0" && m.domainPack == "life" && m.tenantId == auth.tenantId && m.ownerId == auth.ownerId
    && m.applicationId == auth.applicationId && m.actor == Actor(APPLICATION, auth.applicationId)
    && m.occurredAt == now && m.auditId == ids.auditId && m.requestId == ids.requestId
  }

  lemma DraftRecorded(e: EngineEvent, d: Draft, position: nat, t: EventType, aggregateType: string, id: string,
                      version: nat, payload: Payload, auth: S.Auth, ids: Ids, eventId: string, key: Option<string>,
                      now: Time)
    requires d == DraftFor(auth, t, aggregateType, id, version, payload, eventId, ids.auditId, ids.requestId, key, now)
    requires IsDraft(e, d, position)
    ensures Recorded(e, position, t, aggregateType, id, version, auth, ids, eventId, key, now)
    ensures e.material.payload == payload
  {}

  /** A proposal records one event under its key and stores the very row a replay of it yields. */
  lemma ProposalRecords(directory: string -> S.Auth, s: State, auth: S.Auth, proposed: Option<Parameters>,
                        confirmed: bool, ids: Ids, now: Time)
    requires Mirror(directory, s) && |ids.entities| >= 1 && |ids.events| >= 1
    requires Propose(s, auth, proposed, confirmed, ids, now).Ok?
    ensures var t, id, n := Propose(s, auth, proposed, confirmed, ids, now).value, ids.entities[0], |s.ledger.log|;
            && |t.ledger.log| == n + 1 && s.ledger.log < t.ledger.log
            && Recorded(t.ledger.log[n], s.ledger.next, HypothesisProposed, "Hypothesis", id, 1, auth, ids,
                        ids.events[0], Some(ids.key), now)
            && t.ledger.log[n].material.payload == ProposalPayload(id, proposed, confirmed)
            && id in t.tables.hypotheses && id in Replay(t.ledger.log).hypotheses
            && t.tables == s.tables.(hypotheses := s.tables.hypotheses[id := t.tables.hypotheses[id]])
            && t.tables.hypotheses[id] == Replay(t.ledger.log).hypotheses[id]
            && t.tables.hypotheses[id].status == PROPOSED && t.tables.hypotheses[id].parameters == proposed
            && t.tables.hypotheses[id].humanConfirmed == confirmed
  {
    hide S.AppendMany, Replay, Mirror;
    var id := ids.entities[0];
    var t := Propose(s, auth, proposed, confirmed, ids, now).value;
    var d := DraftFor(auth, HypothesisProposed, "Hypothesis", id, 1, ProposalPayload(id, proposed, confirmed),
                      ids.events[0], ids.auditId, ids.requestId, Some(ids.key), now);
    AppendManyAppends(s.ledger, [d]);
    ReplayOfOne(s.ledger, [d], t.ledger);
    DraftRecorded(t.ledger.log[|s.ledger.log|], d, s.ledger.next, HypothesisProposed, "Hypothesis", id, 1,
                  ProposalPayload(id, proposed, confirmed), auth, ids, ids.events[0], Some(ids.key), now);
  }

  /**
   * A retirement records one event under its key, at the version it read plus one, and changes the row it
   * read into a retired one.
   */
  lemma RetirementRecords(seen: State, version: nat, s: State, auth: S.Auth, id: string, reason: string, ids: Ids,
                          now: Time)
    requires |ids.events| >= 1 && Retire(seen, version, s, auth, id, reason, ids, now).Ok?
    ensures var t, n := Retire(seen, version, s, auth, id, reason, ids, now).value, |s.ledger.log|;
            && |t.ledger.log| == n + 1 && s.ledger.log < t.ledger.log
            && Recorded(t.ledger.log[n], s.ledger.next, HypothesisRetired, "Hypothesis", id, version, auth, ids,
                        ids.events[0], Some(ids.key), now)
            && t.ledger.log[n].material.payload == RetirementPayload(id, reason)
            && id in seen.tables.hypotheses && id in t.tables.hypotheses
            && t.tables == s.tables.(hypotheses := s.tables.hypotheses[id := t.tables.hypotheses[id]])
            && t.tables.hypotheses[id].status == RETIRED && t.tables.hypotheses[id].retiredAt == Some(now)
            && t.tables.hypotheses[id].eventId == ids.events[0] && t.tables.hypotheses[id].position == s.ledger.next
            && t.tables.hypotheses[id].auditId == ids.auditId && t.tables.hypotheses[id].updatedAt == now
            && SameTerms(t.tables.hypotheses[id], seen.tables.hypotheses[id])
  {
    hide S.AppendMany;
    var t := Retire(seen, version, s, auth, id, reason, ids, now).value;
    var d := DraftFor(auth, HypothesisRetired, "Hypothesis", id, version, RetirementPayload(id, reason), ids.events[0],
                      ids.auditId, ids.requestId, Some(ids.key), now);
    var drafts := [d];
    AppendManyAppends(s.ledger, drafts);
    assert IsDraft(t.ledger.log[|s.ledger.log| + 0], drafts[0], s.ledger.next + 0);
    DraftRecorded(t.ledger.log[|s.ledger.log|], d, s.ledger.next, HypothesisRetired, "Hypothesis", id, version,
                  RetirementPayload(id, reason), auth, ids, ids.events[0], Some(ids.key), now);
  }

  /** An activation records three events: the activation under its key, the registration and the opened window. */
  lemma ActivationRecords(seen: State, version: nat, s: State, auth: S.Auth, id: string, p: Parameters, ids: Ids,
                          now: Time)
    requires |ids.entities| >= 1 && |ids.events| >= 3 && Activate(seen, version, s, auth, id, p, ids, now).Ok?
    ensures var t, n, x := Activate(seen, version, s, auth, id, p, ids, now).value, |s.ledger.log|, ids.entities[0];
            && |t.ledger.log| == n + 3 && s.ledger.log < t.ledger.log
            && Recorded(t.ledger.log[n], s.ledger.next, HypothesisActivated, "Hypothesis", id, version, auth, ids,
                        ids.events[0], Some(ids.key), now)
            && Recorded(t.ledger.log[n + 1], s.ledger.next + 1, ExperimentRegistered, "Experiment", x, 1, auth, ids,
                        ids.events[1], None, now)
            && Recorded(t.ledger.log[n + 2], s.ledger.next + 2, ExperimentObservationWindowOpened, "Experiment", x, 2,
                        auth, ids, ids.events[2], None, now)
            && t.ledger.log[n].material.payload == ActivationPayload(id, x, p, now)
            && t.ledger.log[n + 1].material.payload == RegistrationPayload(x, id, p, 7, now)
            && t.ledger.log[n + 2].material.payload == WindowPayload(x, id)
  {
    hide S.AppendMany;
    var t, n := Activate(seen, version, s, auth, id, p, ids, now).value, |s.ledger.log|;
    var drafts := ActivationDrafts(auth, version, id, p, ids, now);
    AppendManyAppends(s.ledger, drafts);
    assert IsDraft(t.ledger.log[n + 0], drafts[0], s.ledger.next + 0);
    assert IsDraft(t.ledger.log[n + 1], drafts[1], s.ledger.next + 1);
    assert IsDraft(t.ledger.log[n + 2], drafts[2], s.ledger.next + 2);
  }

  /**
   * The rows an activation stores are those a replay of its events yields, but for the anchor, one position
   * earlier, the two statuses, and the distance to the target, which replay does not know.
   */
  lemma ActivationAgrees(directory: string -> S.Auth, seen: State, s: State, auth: S.Auth, id: string, p: Parameters,
                         ids: Ids, now: Time)
    requires Sees(directory, seen, s) && directory(auth.applicationId) == auth
    requires |ids.entities| >= 1 && |ids.events| >= 3
    requires Activate(seen, NextVersion(seen, auth, "Hypothesis", id), s, auth, id, p, ids, now).Ok?
    ensures var t := Activate(seen, NextVersion(seen, auth, "Hypothesis", id), s, auth, id, p, ids, now).value;
            var u, x := Replay(t.ledger.log), ids.entities[0];
            && id in t.tables.hypotheses && id in u.hypotheses && x in t.tables.experiments && x in u.experiments
            && x in t.tables.progress && x in u.progress
            && t.tables == s.tables.(hypotheses := s.tables.hypotheses[id := t.tables.hypotheses[id]],
                                     experiments := s.tables.experiments[x := t.tables.experiments[x]],
                                     progress := s.tables.progress[x := t.tables.progress[x]])
            && t.tables.hypotheses[id] == u.hypotheses[id].(retiredAt := None)
            && t.tables.hypotheses[id].status == HypothesisStatus.ACTIVE
            && t.tables.hypotheses[id].experimentId == Some(x)
            && t.tables.experiments[x] == u.experiments[x].(status := "REGISTERED",
                                                            anchor := Anchor(ids.events[0], s.ledger.next, now))
            && u.experiments[x].status == "IN_PROGRESS" && u.progress[x].status == "IN_PROGRESS"
            && t.tables.progress[x] == u.progress[x].(status := "COLLECTING_BASELINE",
                                                      targetRemaining := Some(p.prospectiveTarget))
            && u.progress[x].target == p.prospectiveTarget && u.progress[x].windowDaysRemaining == p.maximumWindowDays
            && u.progress[x].baseline == Counts(0, 0, 0) && u.progress[x].prospective == Counts(0, 0, 0)
            && u.progress[x].beliefState == None && u.progress[x].lastEvaluatedAt == None && !u.progress[x].terminal
  {
    hide S.AppendMany, Replay, Apply, LatestVersion, Sees, MovesOn, Begun, RowsFit, ActivationDrafts;
    var version := NextVersion(seen, auth, "Hypothesis", id);
    var t := Activate(seen, version, s, auth, id, p, ids, now).value;
    AppendManyAppends(s.ledger, ActivationDrafts(auth, version, id, p, ids, now));
    RowSeen(directory, seen, s, id);
    RowProposed(directory, seen, s, id);
    var g, y := ActivationReplay(s.ledger, auth, version, id, p, ids, now, t.ledger);
    WindowReplay(s.ledger, auth, version, id, p, ids, now, t.ledger);
  }

  /** Replay of an activation opens the window of a fresh experiment. */
  lemma WindowReplay(before: Ledger, auth: S.Auth, version: nat, id: string, p: Parameters, ids: Ids, now: Time,
                     after: Ledger)
    requires |ids.entities| >= 1 && |ids.events| >= 3
    requires Appended(before, ActivationDrafts(auth, version, id, p, ids, now), after)
    ensures var t, x := Replay(after.log), ids.entities[0];
            && x in t.experiments && x in t.progress
            && t.experiments[x] ==
               Experiment(x, auth.Key(), id,
                          Protocol(now, now, p.prospectiveTarget, p.maximumWindowDays, 7, p.meaningfulDifference,
                                   p.sleepThreshold),
                          "IN_PROGRESS", now, ids.auditId, ids.events[1], before.next + 1, now,
                          Anchor(ids.events[1], before.next + 1, now))
            && t.progress[x] ==
               Progress(x, id, auth.Key(), Counts(0, 0, 0), Counts(0, 0, 0), p.prospectiveTarget, p.maximumWindowDays,
                        "IN_PROGRESS", None, None, now, None, false)
  {
    hide Replay, OnProposed, OnActivated, OnRetired, OnEvidence, OnBelief, OnLearning;
    var drafts := ActivationDrafts(auth, version, id, p, ids, now);
    ReplayOfTwo(before, drafts, after);
    ReplayOfThree(before, drafts, after);
  }

  /** A row seen proposed was proposed when the replayed row was. */
  lemma RowProposed(directory: string -> S.Auth, seen: State, s: State, id: string)
    requires Sees(directory, seen, s) && id in seen.tables.hypotheses
    ensures id in s.tables.hypotheses && id in Replay(s.ledger.log).hypotheses
    ensures seen.tables.hypotheses[id].proposedAt == Replay(s.ledger.log).hypotheses[id].proposedAt
  {
    hide Replay, Alive, Mirror, Later;
    RowSeen(directory, seen, s, id);
  }

  // ---- an evaluation ------------------------------------------------------------------------

  /**
   * An evaluation records its evidence under its key and its belief, BeliefCreated if it read no current one;
   * a terminal one also its outcome and its learning; each as the first version of its own aggregate.
   */
  lemma EvaluationRecords(before: Ledger, c: Case, after: Ledger)
    requires c.Valid() && Appended(before, c.Drafts(), after)
    ensures var n, log, e := |before.log|, after.log, c.ids.entities;
            && |log| == n + (if c.d.terminal then 4 else 2)
            && Recorded(log[n], before.next, EvidenceEvaluated, "Evidence", e[0], 1, c.auth, c.ids, c.ids.events[0],
                        Some(c.ids.key), c.now)
            && Recorded(log[n + 1], before.next + 1, if c.prior.None? then BeliefCreated else BeliefUpdated, "Belief",
                        e[1], 1, c.auth, c.ids, c.ids.events[1], None, c.now)
            && (c.d.terminal ==>
                  && Recorded(log[n + 2], before.next + 2, OutcomeEvaluated, "Outcome", e[2], 1, c.auth, c.ids,
                              c.ids.events[2], None, c.now)
                  && Recorded(log[n + 3], before.next + 3, LearningRecorded, "Learning", e[3], 1, c.auth, c.ids,
                              c.ids.events[3], None, c.now))
  {
    var n, log := |before.log|, after.log;
    DraftCount(c);
    assert IsDraft(log[n + 0], c.Drafts()[0], before.next + 0);
    assert IsDraft(log[n + 1], c.Drafts()[1], before.next + 1);
    if c.d.terminal {
      assert IsDraft(log[n + 2], c.Drafts()[2], before.next + 2);
      assert IsDraft(log[n + 3], c.Drafts()[3], before.next + 3);
    }
  }

  /** The group counts of the evaluation's own phase. */
  predicate CountsOfPhase(c: Case, sufficient: nat, below: nat) {
    if c.phase == BASELINE_EXPLORATORY then sufficient == c.a.baseline.sufficient && below == c.a.baseline.below
    else sufficient == c.a.prospective.sufficient && below == c.a.prospective.below
  }

  /**
   * What an evaluation stores: evidence with the counts of its phase and its decision; a belief bound to that
   * evidence and to the belief it read, with the estimate and a confidence of 14 and 30 observations; for a
   * terminal one the learning from the one belief to the other.
   */
  lemma EvaluationStores(s: State, h: Hypothesis, c: Case)
    requires c.Valid()
    ensures var t, i := TablesAfter(s, h, c), c.ids.entities;
            && i[0] in t.evidence && t.evidence == s.tables.evidence[i[0] := t.evidence[i[0]]]
            && var e := t.evidence[i[0]];
               && e.id == i[0] && e.hypothesisId == c.x.hypothesisId && e.experimentId == c.x.id && e.phase == c.phase
               && e.eligible == c.a.eligible && e.excluded == c.a.excluded && CountsOfPhase(c, e.sufficient, e.below)
               && e.state == c.d.state && e.terminal == c.d.terminal && e.fingerprint == Some(c.a.fingerprint)
               && e.generatedAt == c.now && e.position == s.ledger.next && e.eventId == c.ids.events[0]
               && e.auditId == c.ids.auditId
    ensures var t, i := TablesAfter(s, h, c), c.ids.entities;
            && i[1] in t.beliefs
            && var b := t.beliefs[i[1]];
               && b.id == i[1] && b.hypothesisId == c.x.hypothesisId && b.evidenceId == i[0] && b.isCurrent
               && b.previousBeliefId == (if c.prior.Some? then Some(c.prior.value.id) else None)
               && b.state == c.d.state && b.estimate == c.a.estimate && b.createdAt == c.now
               && b.position == s.ledger.next + 1 && b.eventId == c.ids.events[1] && b.auditId == c.ids.auditId
               && var n := t.evidence[i[0]].sufficient + t.evidence[i[0]].below;
                  && (b.dataConfidence == LOW <==> n < 14) && (b.dataConfidence == MODERATE <==> 14 <= n < 30)
                  && (b.dataConfidence == HIGH <==> n >= 30)
                  && (b.conclusionConfidence == VERY_LOW <==> b.state == INSUFFICIENT_EVIDENCE)
                  && (b.conclusionConfidence == MODERATE <==>
                      b.state == PROSPECTIVE_SUPPORTED || b.state == PROSPECTIVE_WEAKENED)
                  && (b.conclusionConfidence != VERY_LOW && b.conclusionConfidence != MODERATE ==>
                      b.conclusionConfidence == LOW)
    ensures var t, i := TablesAfter(s, h, c), c.ids.entities;
            if c.d.terminal && i[3] !in s.tables.learning then
              && i[3] in t.learning && t.learning == s.tables.learning[i[3] := t.learning[i[3]]]
              && var l := t.learning[i[3]];
                 && l.id == i[3] && l.hypothesisId == c.x.hypothesisId && l.outcomeId == i[2] && l.newBeliefId == i[1]
                 && l.previousBeliefId == (if c.prior.Some? then Some(c.prior.value.id) else None)
                 && l.text == c.a.learningText && l.createdAt == c.now && l.position == s.ledger.next + 3
                 && l.eventId == c.ids.events[3] && l.auditId == c.ids.auditId
            else t.learning == s.tables.learning
  {
    hide ExperimentStatus;
    UpsertAt(s.tables.beliefs, NewBelief(c, s.ledger.next + 1));
    hide UpsertBelief;
  }

  /** The status of an experiment and of its progress, from the phase and the state stored. */
  predicate StatusOf(status: string, phase: EvidencePhase, state: BeliefState) {
    && (status == "COLLECTING_BASELINE" <==> phase == BASELINE_EXPLORATORY)
    && (status == "TERMINAL_SUPPORTED" <==> phase == PROSPECTIVE_VALIDATION && state == PROSPECTIVE_SUPPORTED)
    && (status == "TERMINAL_WEAKENED" <==> phase == PROSPECTIVE_VALIDATION && state == PROSPECTIVE_WEAKENED)
    && (status == "TERMINAL_INCONCLUSIVE" <==> phase == PROSPECTIVE_VALIDATION && state == PROSPECTIVE_INCONCLUSIVE)
    && (status == "EXPIRED_INCONCLUSIVE" <==> phase == PROSPECTIVE_VALIDATION && state == EXPIRED_INCONCLUSIVE)
    && (status == "PROSPECTIVE_COLLECTING" <==> phase == PROSPECTIVE_VALIDATION && state == PROSPECTIVE_COLLECTING)
  }

  /**
   * An evaluation that decides as the use case does stores, for the experiment and its progress alike, the
   * status of the state stored; the hypothesis is EVALUATED exactly if that state ends the experiment. The
   * progress has both cohorts, the whole days left of the window and what is missing to the target.
   */
  lemma EvaluationSettles(s: State, h: Hypothesis, c: Case)
    requires c.Valid() && c.d == DecisionFor(c.x, c.phase, c.a, c.now)
    ensures var t, x := TablesAfter(s, h, c), c.x.id;
            && x in t.experiments && x in t.progress && h.id in t.hypotheses && c.ids.entities[0] in t.evidence
            && var state := t.evidence[c.ids.entities[0]].state;
               && StatusOf(t.experiments[x].status, c.phase, state) && t.progress[x].status == t.experiments[x].status
               && t.hypotheses[h.id].status == (if && c.phase == PROSPECTIVE_VALIDATION
                                                   && state in {PROSPECTIVE_SUPPORTED, PROSPECTIVE_WEAKENED,
                                                                PROSPECTIVE_INCONCLUSIVE, EXPIRED_INCONCLUSIVE}
                                                then EVALUATED else OBSERVING)
               && t.progress[x].beliefState == Some(Named(state))
    ensures var t, x := TablesAfter(s, h, c), c.x.id;
            && t.experiments[x] == c.x.(status := t.experiments[x].status, auditId := c.ids.auditId,
                                        eventId := c.ids.events[0], position := s.ledger.next, updatedAt := c.now)
            && t.hypotheses[h.id] == h.(status := t.hypotheses[h.id].status, auditId := c.ids.auditId,
                                        eventId := c.ids.events[0], position := s.ledger.next, updatedAt := c.now)
            && t.experiments == s.tables.experiments[x := t.experiments[x]]
            && t.hypotheses == s.tables.hypotheses[h.id := t.hypotheses[h.id]]
            && t.progress == s.tables.progress[x := t.progress[x]]
    ensures var t, x := TablesAfter(s, h, c), c.x.id;
            var g := t.progress[x];
            var left := c.x.protocol.prospectiveStart + c.x.protocol.maximumWindowDays * 86_400_000_000 - c.now;
            && g.experimentId == x && g.hypothesisId == c.x.hypothesisId && g.baseline == c.a.baseline
            && g.prospective == c.a.prospective && g.target == c.x.protocol.target
            && g.lastEvaluatedAt == Some(c.now) && g.updatedAt == c.now && g.terminal == c.d.terminal
            && g.windowDaysRemaining >= 0
            && (left < 0 ==> g.windowDaysRemaining == 0)
            && (left >= 0 ==>
                g.windowDaysRemaining * 86_400_000_000 <= left < (g.windowDaysRemaining + 1) * 86_400_000_000)
            && (c.a.prospective.eligible >= c.x.protocol.target ==> g.targetRemaining == Some(0))
            && (c.a.prospective.eligible < c.x.protocol.target ==>
                  g.targetRemaining == Some(c.x.protocol.target - c.a.prospective.eligible))
  {
    hide UpsertBelief, AppendLearning, BeliefRow, LearningRow;
  }

  /**
   * Storing a belief ends the other beliefs of its hypothesis within its owner and application; replaying one
   * ends those of its hypothesis whosever they are. Nothing else about them changes.
   */
  lemma DemotionsExactly(beliefs: map<string, Belief>, row: Belief, hypothesisId: string, id: string)
    requires id in beliefs
    ensures var b, stored := beliefs[id], UpsertBelief(beliefs, row);
            && row.id in stored && stored[row.id] == row && id in stored
            && (id != row.id ==>
                  stored[id] == b.(isCurrent := b.isCurrent
                                                && !(&& b.hypothesisId == row.hypothesisId
                                                     && b.key.ownerId == row.key.ownerId
                                                     && b.key.applicationId == row.key.applicationId)))
    ensures id in Demoted(beliefs, hypothesisId)
            && Demoted(beliefs, hypothesisId)[id] ==
               beliefs[id].(isCurrent := beliefs[id].isCurrent && beliefs[id].hypothesisId != hypothesisId)
  {}

  // ---- replayed evidence and progress -------------------------------------------------------

  /** Live and replayed evidence are the same rows, but for the fingerprint and the terminal flag. */
  ghost predicate EvidenceAgrees(t: Tables, replayed: Tables) {
    && t.evidence.Keys == replayed.evidence.Keys
    && forall id ::
         id in t.evidence ==> replayed.evidence[id] == t.evidence[id].(fingerprint := None, terminal := false)
  }

  lemma StepAgrees(directory: string -> S.Auth, seen: State, s: State, step: Step, t: State)
    requires Next(directory, seen, s, step, t) && Sees(directory, seen, s)
    requires EvidenceAgrees(s.tables, Replay(s.ledger.log))
    ensures EvidenceAgrees(t.tables, Replay(t.ledger.log))
  {
    hide Next, Sees, Replay, FreshIds, Rebuild;
    if t == s { return; }
    if step.action.DoEvaluate? {
      var h, c := EvaluationCase(directory, seen, s, step, t);
      EvaluationAddsEvidence(s.ledger, c, t.ledger);
      EvidenceRowAfter(s, h, c);
    } else {
      var drafts := StepLogs(directory, seen, s, step, t);
      ReplayKeepsEvidence(s.ledger, drafts, t.ledger, |drafts|);
      assert t.ledger.log[..|s.ledger.log| + |drafts|] == t.ledger.log;
      if step.action.DoRebuild? {
        RebuiltRows(directory, seen, s, step, t);
        ReplayedEvidence(s.ledger.log);
        forall id | id in Replay(s.ledger.log).evidence ensures !Replay(s.ledger.log).evidence[id].terminal {}
      } else {
        OthersKeepRows(directory, seen, s, step, t);
      }
    }
  }

  lemma EvidenceRowAfter(s: State, h: Hypothesis, c: Case)
    requires c.Valid()
    ensures TablesAfter(s, h, c).evidence ==
            s.tables.evidence[c.ids.entities[0] :=
              EvidenceRow(c.x, c.auth, c.phase, c.a, c.d, c.ids, s.ledger.next, c.now)]
  {
    hide UpsertBelief, AppendLearning, BeliefRow, LearningRow, ExperimentStatus;
  }

  /** In every run live evidence equals replayed evidence, but for the fingerprint and the terminal flag. */
  lemma {:induction false} EvidenceAgreesThroughout(directory: string -> S.Auth, trace: seq<State>, steps: seq<Step>,
                                                    i: nat)
    requires Run(directory, trace, steps) && i < |trace|
    ensures EvidenceAgrees(trace[i].tables, Replay(trace[i].ledger.log))
  {
    if i > 0 {
      hide EvidenceAgrees, Sees, Replay, Next;
      EvidenceAgreesThroughout(directory, trace, steps, i - 1);
      HistoricThroughout(directory, trace, steps, steps[i - 1].since, i - 1);
      assert Next(directory, trace[steps[i - 1].since], trace[i - 1], steps[i - 1], trace[i]);
      StepAgrees(directory, trace[steps[i - 1].since], trace[i - 1], steps[i - 1], trace[i]);
    }
  }

  /** The row replay makes of the progress of an experiment evaluated. */
  function ReplayedProgress(was: Progress, c: Case): Progress {
    var n := if c.phase == BASELINE_EXPLORATORY then c.a.baseline else c.a.prospective;
    var counts := Counts(c.a.eligible, n.sufficient, n.below);
    was.(status := "IN_PROGRESS", beliefState := Some(Named(c.d.state)), lastEvaluatedAt := Some(c.now),
         updatedAt := c.now,
         baseline := if c.phase == BASELINE_EXPLORATORY then counts else was.baseline,
         prospective := if c.phase == BASELINE_EXPLORATORY then was.prospective else counts)
  }

  lemma ProgressEvent(c: Case, t: Tables, e: EngineEvent, position: nat)
    requires c.Valid() && IsDraft(e, c.Drafts()[0], position)
    ensures Apply(t, e).progress ==
            if c.x.id in t.progress then t.progress[c.x.id := ReplayedProgress(t.progress[c.x.id], c)] else t.progress
  {
    hide EvaluationDrafts, OnProposed, OnActivated, OnRetired, OnRegistered, WithStatus, OnBelief, OnLearning;
    EvidenceDraft(c);
    EvidencePayloadOf(c);
  }

  lemma OthersKeepProgress(t: Tables, e: EngineEvent)
    requires e.material.eventType in {BeliefCreated, BeliefUpdated, OutcomeEvaluated, LearningRecorded}
    ensures Apply(t, e).progress == t.progress
  {
    hide OnProposed, OnActivated, OnRetired, OnRegistered, WithStatus, OnEvidence, Demoted;
  }

  lemma LaterDraftsAreNot(c: Case)
    requires c.Valid()
    ensures forall i :: 1 <= i < |c.Drafts()| ==>
              c.Drafts()[i].material.eventType in {BeliefCreated, BeliefUpdated, OutcomeEvaluated, LearningRecorded}
  {}

  /** Replaying an evaluation changes one progress row, to the counts its evidence event carries. */
  lemma ProgressReplay(before: Ledger, c: Case, after: Ledger)
    requires c.Valid() && Appended(before, c.Drafts(), after)
    ensures var t := Replay(before.log);
            Replay(after.log).progress ==
            if c.x.id in t.progress then t.progress[c.x.id := ReplayedProgress(t.progress[c.x.id], c)] else t.progress
  {
    hide Replay, Apply, EvaluationDrafts, IsDraft, ReplayedProgress;
    var drafts, n, log := c.Drafts(), |before.log|, after.log;
    DraftCount(c);
    ReplayOfTwo(before, drafts, after);
    var t := Replay(before.log);
    ProgressEvent(c, t, log[n], before.next);
    LaterDraftsAreNot(c);
    DraftKind(log[n + 1], drafts[1], before.next + 1);
    OthersKeepProgress(Apply(t, log[n]), log[n + 1]);
    if c.d.terminal {
      ReplayOfFour(before, drafts, after);
      var u := Apply(Apply(t, log[n]), log[n + 1]);
      DraftKind(log[n + 2], drafts[2], before.next + 2);
      DraftKind(log[n + 3], drafts[3], before.next + 3);
      OthersKeepProgress(u, log[n + 2]);
      OthersKeepProgress(Apply(u, log[n + 2]), log[n + 3]);
    }
  }

  /**
   * After an evaluation live and replayed progress agree on the counts of its phase exactly when its cohort
   * is all the eligible rows: the event carries how many rows were eligible, the row how many are in the cohort.
   */
  lemma ProgressAgreesExactly(s: State, h: Hypothesis, c: Case, t: State)
    requires c.Valid() && Appended(s.ledger, c.Drafts(), t.ledger) && t.tables == TablesAfter(s, h, c)
    requires c.x.id in Replay(s.ledger.log).progress
    ensures c.x.id in t.tables.progress && c.x.id in Replay(t.ledger.log).progress
    ensures var live, replayed := t.tables.progress[c.x.id], Replay(t.ledger.log).progress[c.x.id];
            && (c.phase == BASELINE_EXPLORATORY ==>
                  (replayed.baseline == live.baseline <==> c.a.eligible == c.a.baseline.eligible))
            && (c.phase == PROSPECTIVE_VALIDATION ==>
                  (replayed.prospective == live.prospective <==> c.a.eligible == c.a.prospective.eligible))
            && replayed.beliefState == live.beliefState && replayed.lastEvaluatedAt == live.lastEvaluatedAt
            && replayed.updatedAt == live.updatedAt && replayed.status == "IN_PROGRESS" != live.status
  {
    hide Replay, EvaluationDrafts, UpsertBelief, AppendLearning, BeliefRow, LearningRow;
    ProgressReplay(s.ledger, c, t.ledger);
  }

  /** Replayed closing events settle the status of experiment and progress, a completion also the state. */
  lemma ClosingReplay(t: Tables, e: EngineEvent, x: string)
    requires e.material.payload.ClosurePayload? && e.material.payload.experimentId == x
    requires e.material.eventType == ExperimentCompleted || e.material.eventType == ExperimentExpiredInconclusive
    ensures var u := Apply(t, e);
            var status := if e.material.eventType == ExperimentCompleted then "COMPLETED" else "EXPIRED";
            && u.experiments.Keys == t.experiments.Keys && u.progress.Keys == t.progress.Keys
            && (x in t.experiments ==> u.experiments[x] == t.experiments[x].(status := status,
                                                                             updatedAt := e.material.occurredAt))
            && (x in t.progress ==>
                  && u.progress[x].status == status && u.progress[x].updatedAt == e.material.occurredAt
                  && (e.material.eventType == ExperimentExpiredInconclusive ==>
                        u.progress[x].beliefState == t.progress[x].beliefState)
                  && (e.material.eventType == ExperimentCompleted ==>
                        u.progress[x].beliefState == if e.material.payload.finalBeliefState.Some?
                                                     then Some(Named(e.material.payload.finalBeliefState.value))
                                                     else Some(NoneText)))
            && (forall y :: y in t.experiments && y != x ==> u.experiments[y] == t.experiments[y])
            && (forall y :: y in t.progress && y != x ==> u.progress[y] == t.progress[y])
  {
    hide Apply, WithStatus;
    ClosingSetsStatus(t, e, x);
    if e.material.eventType == ExperimentCompleted {
      StatusSettled(t, x, "COMPLETED", Some(FinalText(e.material.payload.finalBeliefState)), e.material.occurredAt);
    } else {
      StatusSettled(t, x, "EXPIRED", None, e.material.occurredAt);
    }
  }

  lemma StatusSettled(t: Tables, x: string, status: string, state: Option<StateText>, at: Time)
    ensures var u := WithStatus(t, x, status, state, at);
            && u.experiments.Keys == t.experiments.Keys && u.progress.Keys == t.progress.Keys
            && (x in t.experiments ==> u.experiments[x] == t.experiments[x].(status := status, updatedAt := at))
            && (x in t.progress ==>
                  && u.progress[x].status == status && u.progress[x].updatedAt == at
                  && u.progress[x].beliefState == if state.Some? then state else t.progress[x].beliefState)
            && (forall y :: y in t.experiments && y != x ==> u.experiments[y] == t.experiments[y])
            && (forall y :: y in t.progress && y != x ==> u.progress[y] == t.progress[y])
  {}

  lemma ClosingSetsStatus(t: Tables, e: EngineEvent, x: string)
    requires e.material.payload.ClosurePayload? && e.material.payload.experimentId == x
    requires e.material.eventType == ExperimentCompleted || e.material.eventType == ExperimentExpiredInconclusive
    ensures Apply(t, e) ==
            if e.material.eventType == ExperimentCompleted
            then WithStatus(t, x, "COMPLETED", Some(FinalText(e.material.payload.finalBeliefState)),
                            e.material.occurredAt)
            else WithStatus(t, x, "EXPIRED", None, e.material.occurredAt)
  {
    hide WithStatus, OnProposed, OnActivated, OnRetired, OnRegistered, OnEvidence, OnBelief, OnLearning;
  }

  predicate IsEpistemic(t: EventType) {
    || t == HypothesisProposed || t == HypothesisActivated || t == HypothesisRetired || t == ExperimentRegistered
    || t == ExperimentObservationWindowOpened || t == EvidenceEvaluated || t == BeliefCreated || t == BeliefUpdated
    || t == OutcomeEvaluated || t == LearningRecorded || t == ExperimentCompleted || t == ExperimentExpiredInconclusive
  }

  /**
   * Replay refuses exactly the types outside the catalog and the epistemic events whose payload does not fit;
   * every other catalog type, and an outcome, leaves the rows as they are.
   */
  lemma HandledExactly(t: Tables, e: EngineEvent)
    ensures var kind, fits := e.material.eventType, PayloadFits(e.material.eventType, e.material.payload);
            && (Handled(e) <==> !kind.Unregistered? && (IsEpistemic(kind) ==> fits))
            && (!IsEpistemic(kind) || kind == OutcomeEvaluated || !fits ==> Apply(t, e) == t)
  {
    hide OnProposed, OnActivated, OnRetired, OnRegistered, WithStatus, OnEvidence, OnBelief, OnLearning;
  }

  /** A rebuild records itself as the engine's, and is refused exactly while the engine's stream is quarantined. */
  lemma RebuildRecords(s: State, order: seq<Belief>, ids: Ids, now: Time)
    requires |ids.events| >= 1
    ensures var r, system := Rebuild(s, order, ids, now), StreamKey("tnt_system", "usr_system", "app_system");
            && (!HasEventId(s.ledger.log, ids.events[0]) ==>
                  (r.Err? <==> system in s.ledger.heads && s.ledger.heads[system].status == QUARANTINED))
            && (r.Ok? ==>
                  && |r.value.ledger.log| == |s.ledger.log| + 1 && s.ledger.log < r.value.ledger.log
                  && var e := r.value.ledger.log[|s.ledger.log|];
                     && e.Key() == system && e.material.eventType == ProjectionRebuilt
                     && e.material.aggregateType == "Projection" && e.material.aggregateId == "epistemic_loop"
                     && e.material.eventId == ids.events[0] && e.material.actor == Actor(SYSTEM, "engine-system")
                     && e.material.occurredAt == now && e.idempotencyKey == None && e.position == s.ledger.next)
  {
    hide LatestVersion, Replay, WriteAll;
  }
}
