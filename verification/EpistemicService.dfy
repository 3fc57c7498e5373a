/** The in-memory replay of the epistemic read model, and the evaluation transaction, in place. */
module EpistemicService {
  import opened Common
  import opened Ledger
  import opened Evaluation
  import S = Submission
  import opened Epistemic
  import EpistemicRuns

  /** Six maps, updated by one handler per event type. */
  class EpistemicState {
    var hypotheses: map<string, Hypothesis>
    var experiments: map<string, Experiment>
    var beliefs: map<string, Belief>
    var evidence: map<string, Evidence>
    var progress: map<string, Progress>
    var learning: map<string, Learning>

    constructor ()
      ensures Rows() == NO_ROWS
    {
      hypotheses, experiments, beliefs, evidence, progress, learning := map[], map[], map[], map[], map[], map[];
    }

    function Rows(): Tables
      reads this
    {
      Tables(hypotheses, experiments, beliefs, evidence, progress, learning)
    }

    method HandleProposed(e: EngineEvent)
      requires e.material.payload.ProposalPayload?
      modifies this`hypotheses
      ensures Rows() == OnProposed(old(Rows()), e)
    {
      var m, p := e.material, e.material.payload;
      hypotheses := hypotheses[p.hypothesisId :=
        Hypothesis(p.hypothesisId, e.Key(), PROPOSED, p.humanConfirmed, p.proposed, m.occurredAt, None, None, None,
                   m.auditId, m.eventId, e.position, m.occurredAt)];
    }

    method HandleActivated(e: EngineEvent)
      requires e.material.payload.ActivationPayload?
      modifies this`hypotheses
      ensures Rows() == OnActivated(old(Rows()), e)
    {
      var m, p := e.material, e.material.payload;
      if p.hypothesisId !in hypotheses { return; }
      hypotheses := hypotheses[p.hypothesisId := hypotheses[p.hypothesisId].(
        status := HypothesisStatus.ACTIVE, humanConfirmed := true, parameters := Some(p.parameters),
        activatedAt := Some(m.occurredAt), experimentId := Some(p.experimentId), auditId := m.auditId,
        eventId := m.eventId, position := e.position, updatedAt := m.occurredAt)];
    }

    method HandleRetired(e: EngineEvent)
      requires e.material.payload.RetirementPayload?
      modifies this`hypotheses
      ensures Rows() == OnRetired(old(Rows()), e)
    {
      var m, p := e.material, e.material.payload;
      if p.hypothesisId !in hypotheses { return; }
      hypotheses := hypotheses[p.hypothesisId := hypotheses[p.hypothesisId].(
        status := RETIRED, retiredAt := Some(m.occurredAt), auditId := m.auditId, eventId := m.eventId,
        position := e.position, updatedAt := m.occurredAt)];
    }

    method HandleRegistered(e: EngineEvent)
      requires e.material.payload.RegistrationPayload?
      modifies this`experiments, this`progress
      ensures Rows() == OnRegistered(old(Rows()), e)
    {
      var m, p := e.material, e.material.payload;
      experiments := experiments[p.experimentId :=
        Experiment(p.experimentId, e.Key(), p.hypothesisId, RegisteredProtocol(p), "REGISTERED", m.occurredAt,
                   m.auditId,
                   m.eventId, e.position, m.occurredAt, Anchor(m.eventId, e.position, m.occurredAt))];
      progress := progress[p.experimentId :=
        Progress(p.experimentId, p.hypothesisId, e.Key(), Counts(0, 0, 0), Counts(0, 0, 0),
                 p.parameters.prospectiveTarget,
                 p.parameters.maximumWindowDays, "REGISTERED", None, None, m.occurredAt, None, false)];
    }

    method SetStatus(experimentId: string, status: string, state: Option<StateText>, at: Time)
      modifies this`experiments, this`progress
      ensures Rows() == WithStatus(old(Rows()), experimentId, status, state, at)
    {
      if experimentId in experiments {
        experiments := experiments[experimentId := experiments[experimentId].(status := status, updatedAt := at)];
      }
      if experimentId in progress {
        var row := progress[experimentId].(status := status, updatedAt := at);
        if state.Some? { row := row.(beliefState := state); }
        progress := progress[experimentId := row];
      }
    }

    method HandleEvidence(e: EngineEvent)
      requires e.material.payload.EvidencePayload?
      modifies this`evidence, this`progress
      ensures Rows() == OnEvidence(old(Rows()), e)
    {
      var m, p := e.material, e.material.payload;
      evidence := evidence[p.evidenceId :=
        Evidence(p.evidenceId, e.Key(), p.hypothesisId, p.experimentId, p.phase, p.eligible, p.excluded, p.sufficient,
                 p.below, p.beliefState, m.occurredAt, m.auditId, m.eventId, e.position, None, false)];
      if p.experimentId !in progress { return; }
      var row := progress[p.experimentId].(status := "IN_PROGRESS", beliefState := Some(Named(p.beliefState)),
                                           lastEvaluatedAt := Some(m.occurredAt), updatedAt := m.occurredAt);
      if p.phase == BASELINE_EXPLORATORY {
        row := row.(baseline := Counts(p.eligible, p.sufficient, p.below));
      } else {
        row := row.(prospective := Counts(p.eligible, p.sufficient, p.below));
      }
      progress := progress[p.experimentId := row];
    }

    /** Demote the beliefs of the hypothesis one by one, then store the new current one. */
    method HandleBelief(e: EngineEvent)
      requires e.material.payload.BeliefPayload?
      modifies this`beliefs
      ensures Rows() == OnBelief(old(Rows()), e)
    {
      var hypothesisId := e.material.payload.hypothesisId;
      var pending := beliefs.Keys;
      while pending != {}
        invariant pending <= beliefs.Keys == old(beliefs).Keys
        invariant forall id :: id in pending ==> beliefs[id] == old(beliefs)[id]
        invariant forall id ::
                    id in beliefs && id !in pending ==> beliefs[id] == Demoted(old(beliefs), hypothesisId)[id]
        decreases |pending|
      {
        var id :| id in pending;
        if beliefs[id].hypothesisId == hypothesisId && beliefs[id].isCurrent {
          beliefs := beliefs[id := Demote(beliefs[id])];
        }
        pending := pending - {id};
      }
      assert beliefs == Demoted(old(beliefs), hypothesisId);
      beliefs := beliefs[e.material.payload.beliefId := ReplayedBelief(e)];
    }

    method HandleLearning(e: EngineEvent)
      requires e.material.payload.LearningPayload?
      modifies this`learning
      ensures Rows() == OnLearning(old(Rows()), e)
    {
      learning := learning[e.material.payload.learningId := ReplayedLearning(e)];
    }

    /** Apply one event; a type outside the catalog is refused and changes nothing. */
    method Handle(e: EngineEvent) returns (known: bool)
      modifies this
      ensures known <==> Handled(e)
      ensures Rows() == Epistemic.Apply(old(Rows()), e)
    {
      var m := e.material;
      if IsIgnored(m.eventType) { return true; }
      if !PayloadFits(m.eventType, m.payload) { return false; }
      known := true;
      match m.eventType {
        case HypothesisProposed => HandleProposed(e);
        case HypothesisActivated => HandleActivated(e);
        case HypothesisRetired => HandleRetired(e);
        case ExperimentRegistered => HandleRegistered(e);
        case ExperimentObservationWindowOpened => SetStatus(m.payload.experimentId, "IN_PROGRESS", None, m.occurredAt);
        case EvidenceEvaluated => HandleEvidence(e);
        case BeliefCreated => HandleBelief(e);
        case BeliefUpdated => HandleBelief(e);
        case LearningRecorded => HandleLearning(e);
        case ExperimentCompleted => SetStatus(m.payload.experimentId, "COMPLETED",
                                              Some(FinalText(m.payload.finalBeliefState)), m.occurredAt);
        case ExperimentExpiredInconclusive => SetStatus(m.payload.experimentId, "EXPIRED", None, m.occurredAt);
        case _ =>
      }
    }

    /** Replay a log of handled events into a fresh state. */
    method HandleAll(log: seq<EngineEvent>) returns (quarantined: bool)
      requires Rows() == NO_ROWS
      modifies this
      ensures quarantined <==> exists i :: 0 <= i < |log| && !Handled(log[i])
      ensures !quarantined ==> Rows() == Replay(log)
    {
      for i := 0 to |log|
        invariant Rows() == Replay(log[..i]) && forall j :: 0 <= j < i ==> Handled(log[j])
      {
        assert log[..i + 1][..i] == log[..i];
        var known := Handle(log[i]);
        if !known { return true; }
      }
      assert log[..|log|] == log;
      quarantined := false;
    }
  }

  /** Write a replayed state into emptied tables, the beliefs one by one in position order. */
  method WriteRows(state: EpistemicState, order: seq<Belief>) returns (rows: Tables)
    requires EpistemicRuns.ListsBeliefs(order, state.beliefs)
    ensures rows == state.Rows().(beliefs := EpistemicRuns.WriteAll(order))
  {
    var written: map<string, Belief> := map[];
    for i := 0 to |order|
      invariant written == EpistemicRuns.WriteAll(order[..i])
    {
      assert order[..i + 1][..i] == order[..i];
      written := UpsertBelief(written, order[i]);
    }
    assert order[..|order|] == order;
    rows := state.Rows().(beliefs := written);
  }

  class EvaluateExperimentUseCase {
    var ledger: Ledger
    var hypotheses: map<string, Hypothesis>
    var experiments: map<string, Experiment>
    var beliefs: map<string, Belief>
    var evidence: map<string, Evidence>
    var progress: map<string, Progress>
    var learning: map<string, Learning>

    constructor ()
      ensures Store() == State(EMPTY, NO_ROWS)
    {
      ledger := EMPTY;
      hypotheses, experiments, beliefs, evidence, progress, learning := map[], map[], map[], map[], map[], map[];
    }

    function Store(): State
      reads this
    {
      State(ledger, Tables(hypotheses, experiments, beliefs, evidence, progress, learning))
    }

    method CurrentBelief(auth: S.Auth, hypothesisId: string) returns (prior: Option<Belief>)
      requires forall id :: id in beliefs ==> beliefs[id].id == id
      ensures ReadsCurrent(beliefs, auth, hypothesisId, prior)
    {
      prior := None;
      var pending := beliefs.Keys;
      while pending != {}
        invariant pending <= beliefs.Keys
        invariant forall id :: id in beliefs && id !in pending ==> !IsCurrentOf(beliefs[id], auth, hypothesisId)
        decreases |pending|
      {
        var id :| id in pending;
        if IsCurrentOf(beliefs[id], auth, hypothesisId) { return Some(beliefs[id]); }
        pending := pending - {id};
      }
    }

    /** The evidence row that bears the fingerprint, if any. */
    method EvidenceByFingerprint(auth: S.Auth, experimentId: string, phase: EvidencePhase, fingerprint: string)
      returns (row: Option<Evidence>)
      requires forall id :: id in evidence ==> evidence[id].id == id
      ensures row.Some? <==> FingerprintTaken(Store().tables, auth, experimentId, phase, fingerprint)
      ensures row.Some? ==> row.value.id in evidence && evidence[row.value.id] == row.value
      ensures row.Some? ==> Bears(row.value, auth, experimentId, phase, fingerprint)
    {
      row := None;
      var pending := evidence.Keys;
      while pending != {}
        invariant pending <= evidence.Keys
        invariant forall id ::
                    id in evidence && id !in pending ==> !Bears(evidence[id], auth, experimentId, phase, fingerprint)
        decreases |pending|
      {
        var id :| id in pending;
        if Bears(evidence[id], auth, experimentId, phase, fingerprint) { return Some(evidence[id]); }
        pending := pending - {id};
      }
    }

    /** The first belief bound to the evidence, else the one given. */
    method BeliefOfEvidence(auth: S.Auth, hypothesisId: string, evidenceId: string, current: Option<Belief>)
      returns (belief: Option<Belief>)
      requires forall id :: id in beliefs ==> beliefs[id].id == id
      ensures PrefersBound(beliefs, auth, hypothesisId, evidenceId, current, belief)
    {
      var first: Option<Belief> := None;
      var pending := beliefs.Keys;
      while pending != {}
        invariant pending <= beliefs.Keys
        invariant first.Some? ==> && first.value.id in beliefs && beliefs[first.value.id] == first.value
                                  && BoundTo(first.value, auth, hypothesisId, evidenceId)
        invariant forall id ::
                    id in beliefs && id !in pending && BoundTo(beliefs[id], auth, hypothesisId, evidenceId) ==>
                    first.Some? && first.value.position <= beliefs[id].position
        decreases |pending|
      {
        var id :| id in pending;
        var b := beliefs[id];
        if BoundTo(b, auth, hypothesisId, evidenceId) && (first.None? || b.position < first.value.position) {
          first := Some(b);
        }
        pending := pending - {id};
      }
      belief := if first.Some? then first else current;
    }

    /** Append drafts one after the other, in one transaction. */
    static method AppendEvents(l: Ledger, drafts: seq<Draft>) returns (r: Result<Ledger, EpistemicError>)
      ensures r == AppendSeq(l, drafts)
    {
      var working := l;
      for i := 0 to |drafts|
        invariant S.AppendMany(l, drafts[..i]) == Ok(working)
      {
        assert drafts[..i + 1][..i] == drafts[..i];
        var appended := AppendOne(working, drafts[i]);
        if appended.Err? {
          FirstRejectionStands(l, drafts, i + 1);
          return Err(Rejected(appended.error));
        }
        working := appended.value;
      }
      assert drafts[..|drafts|] == drafts;
      r := Ok(working);
    }

    /** Write the six kinds of rows of an evaluation, its events starting at the next position. */
    method StoreRows(x: Experiment, h: Hypothesis, auth: S.Auth, phase: EvidencePhase, a: Assessment, d: Decision,
                     prior: Option<Belief>, ids: Ids, now: Time)
      requires |ids.entities| >= 4 && |ids.events| >= 4
      modifies this`evidence, this`beliefs, this`learning, this`hypotheses, this`experiments, this`progress
      ensures Store() == State(old(ledger), EvaluatedTables(old(Store()), x, h, auth, phase, a, d, prior, ids, now))
    {
      hide EvidenceRow, BeliefRow, LearningRow, UpsertBelief, AppendLearning, ExperimentStatus;
      var at := ledger.next;
      evidence := evidence[ids.entities[0] := EvidenceRow(x, auth, phase, a, d, ids, at, now)];
      beliefs := UpsertBelief(beliefs, BeliefRow(x, auth, phase, a, d, prior, ids, at + 1, now));
      if d.terminal { learning := AppendLearning(learning, LearningRow(x, auth, a, prior, ids, at + 3, now)); }
      var status := ExperimentStatus(phase, d);
      hypotheses := hypotheses[h.id := h.(status := if d.terminal then EVALUATED else OBSERVING, auditId := ids.auditId,
                                          eventId := ids.events[0], position := at, updatedAt := now)];
      experiments := experiments[x.id := x.(status := status, auditId := ids.auditId, eventId := ids.events[0],
                                            position := at, updatedAt := now)];
      progress := progress[x.id := Progress(x.id, x.hypothesisId, auth.Key(), a.baseline, a.prospective,
                                            x.protocol.target,
                                            Max(0, (Deadline(x) - now) / DAY), status, Some(Named(d.state)), Some(now),
                                                now,
                                            Some(Max(0, x.protocol.target - a.prospective.eligible)), d.terminal)];
    }

    /** One evaluation as one transaction; a rejected or repeated one writes nothing. */
    method Write(auth: S.Auth, experimentId: string, phase: EvidencePhase, a: Assessment, ids: Ids, now: Time)
      returns (r: Result<EvaluationReply, EpistemicError>, ghost prior: Option<Belief>)
      requires forall id :: id in beliefs ==> beliefs[id].id == id
      requires forall id :: id in evidence ==> evidence[id].id == id
      requires forall id :: id in experiments ==> experiments[id].id == id
      requires |ids.entities| >= 4 && |ids.events| >= 4
      modifies this
      ensures FindExperiment(old(Store()).tables, auth, experimentId).Some? ==>
                ReadsCurrent(old(Store()).tables.beliefs, auth,
                             old(Store()).tables.experiments[experimentId].hypothesisId, prior)
      ensures var e := Evaluate(old(Store()), prior, old(Store()), auth, experimentId, phase, a, ids, now);
              && Store() == (if e.Ok? then e.value.state else old(Store()))
              && (e.Err? ==> r == Err(e.error))
              && (e.Ok? ==> r.Ok? && r.value.replayed == e.value.replayed)
      ensures r.Ok? && r.value.replayed ==>
                AnswersFrom(old(Store()).tables, auth, old(Store()).tables.experiments[experimentId], phase,
                            a.fingerprint, prior, r.value)
      ensures r.Ok? && !r.value.replayed ==>
                AnswersNew(Store().tables, old(Store()).tables.experiments[experimentId], ids, r.value)
    {
      hide EvaluationDrafts, FingerprintTaken, EvaluatedTables, ReadsCurrent, AppendSeq, Decide;
      prior := None;
      var foundX := FindExperiment(Store().tables, auth, experimentId);
      if foundX.None? { return Err(ExperimentNotFound), prior; }
      var x := foundX.value;
      var current := CurrentBelief(auth, x.hypothesisId);
      prior := current;
      var foundH := FindHypothesis(Store().tables, auth, x.hypothesisId);
      if foundH.None? { return Err(HypothesisNotFound), prior; }
      var h := foundH.value;
      if h.status == RETIRED { return Err(HypothesisStateInvalid), prior; }
      var expired := phase == PROSPECTIVE_VALIDATION && now > Deadline(x);
      var state, terminal, reason := DecideTerminal(phase, a.classified, a.critical, expired);
      var d := Decision(state, terminal, reason);
      var existing := EvidenceByFingerprint(auth, experimentId, phase, a.fingerprint);
      if existing.Some? {
        var bound := BeliefOfEvidence(auth, x.hypothesisId, existing.value.id, current);
        return Ok(EvaluationReply(existing.value, bound, FindProgress(Store().tables, auth, x.id), true)), prior;
      }
      var appended := AppendEvents(ledger, EvaluationDrafts(x, auth, phase, a, d, current, ids, now));
      if appended.Err? { return Err(appended.error), prior; }
      StoreRows(x, h, auth, phase, a, d, current, ids, now);
      NewRows(old(Store()), x, h, auth, phase, a, d, current, ids, now);
      ledger := appended.value;
      r := Ok(EvaluationReply(evidence[ids.entities[0]], Some(beliefs[ids.entities[1]]), Some(progress[x.id]), false));
    }
  }

  /** Propose, activate and retire, each one transaction over the same tables. */
  class HypothesisUseCases {
    var ledger: Ledger
    var tables: Tables

    constructor ()
      ensures Store() == State(EMPTY, NO_ROWS)
    {
      ledger, tables := EMPTY, NO_ROWS;
    }

    function Store(): State
      reads this
    {
      State(ledger, tables)
    }

    method WriteProposal(auth: S.Auth, proposed: Option<Parameters>, confirmed: bool, ids: Ids, now: Time)
      returns (r: Result<string, EpistemicError>)
      requires |ids.entities| >= 1 && |ids.events| >= 1
      modifies this
      ensures Store() == Committed(old(Store()), Propose(old(Store()), auth, proposed, confirmed, ids, now))
      ensures r == Answer(Propose(old(Store()), auth, proposed, confirmed, ids, now), ids.entities[0])
    {
      var id, at := ids.entities[0], ledger.next;
      var appended := EvaluateExperimentUseCase.AppendEvents(ledger, [
        DraftFor(auth, HypothesisProposed, "Hypothesis", id, 1, ProposalPayload(id, proposed, confirmed),
                 ids.events[0], ids.auditId, ids.requestId, Some(ids.key), now)]);
      if appended.Err? { return Err(appended.error); }
      tables := tables.(hypotheses := tables.hypotheses[id :=
        Hypothesis(id, auth.Key(), PROPOSED, confirmed, proposed, now, None, None, None, ids.auditId, ids.events[0], at,
                   now)]);
      ledger := appended.value;
      r := Ok(id);
    }

    method WriteActivation(auth: S.Auth, hypothesisId: string, p: Parameters, ids: Ids, now: Time)
      returns (r: Result<string, EpistemicError>)
      requires |ids.entities| >= 1 && |ids.events| >= 3
      modifies this
      ensures var a := Activate(old(Store()), NextVersion(old(Store()), auth, "Hypothesis", hypothesisId), old(Store()),
                                auth, hypothesisId, p, ids, now);
              Store() == Committed(old(Store()), a) && r == Answer(a, ids.entities[0])
    {
      hide LatestVersion, ActivationDrafts, AppendSeq;
      var found := FindHypothesis(tables, auth, hypothesisId);
      if found.None? { return Err(HypothesisNotFound); }
      var row := found.value;
      if row.status != PROPOSED { return Err(HypothesisStateInvalid); }
      var x, at := ids.entities[0], ledger.next;
      var version := NextVersion(Store(), auth, "Hypothesis", hypothesisId);
      var appended := EvaluateExperimentUseCase.AppendEvents(ledger,
                                                             ActivationDrafts(auth, version, hypothesisId, p, ids,
                                                                 now));
      if appended.Err? { return Err(appended.error); }
      row := row.(status := HypothesisStatus.ACTIVE, humanConfirmed := true, parameters := Some(p),
                  activatedAt := Some(now), retiredAt := None,
                  experimentId := Some(x), auditId := ids.auditId, eventId := ids.events[0], position := at,
                      updatedAt := now);
      var protocol := Protocol(now, now, p.prospectiveTarget, p.maximumWindowDays, PROSPECTIVE_GROUP,
                               p.meaningfulDifference, p.sleepThreshold);
      tables := tables.(
        hypotheses := tables.hypotheses[hypothesisId := row],
        experiments := tables.experiments[x :=
          Experiment(x, auth.Key(), hypothesisId, protocol, "REGISTERED", now, ids.auditId, ids.events[1], at + 1, now,
                     Anchor(ids.events[0], at, now))],
        progress := tables.progress[x :=
          Progress(x, hypothesisId, auth.Key(), Counts(0, 0, 0), Counts(0, 0, 0), p.prospectiveTarget,
                   p.maximumWindowDays,
                   "COLLECTING_BASELINE", None, None, now, Some(p.prospectiveTarget), false)]);
      ledger := appended.value;
      r := Ok(x);
    }

    method WriteRetirement(auth: S.Auth, hypothesisId: string, reason: string, ids: Ids, now: Time)
      returns (r: Result<string, EpistemicError>)
      requires |ids.events| >= 1
      modifies this
      ensures var a := Retire(old(Store()), NextVersion(old(Store()), auth, "Hypothesis", hypothesisId), old(Store()),
                              auth, hypothesisId, reason, ids, now);
              Store() == Committed(old(Store()), a) && r == Answer(a, hypothesisId)
    {
      hide LatestVersion, AppendSeq;
      var found := FindHypothesis(tables, auth, hypothesisId);
      if found.None? { return Err(HypothesisNotFound); }
      if found.value.status == RETIRED { return Err(HypothesisStateInvalid); }
      var version, at := NextVersion(Store(), auth, "Hypothesis", hypothesisId), ledger.next;
      var appended := EvaluateExperimentUseCase.AppendEvents(ledger, [
        DraftFor(auth, HypothesisRetired, "Hypothesis", hypothesisId, version, RetirementPayload(hypothesisId, reason),
                 ids.events[0], ids.auditId, ids.requestId, Some(ids.key), now)]);
      if appended.Err? { return Err(appended.error); }
      tables := tables.(hypotheses := tables.hypotheses[hypothesisId :=
        found.value.(status := RETIRED, retiredAt := Some(now), auditId := ids.auditId, eventId := ids.events[0],
                     position := at, updatedAt := now)]);
      ledger := appended.value;
      r := Ok(hypothesisId);
    }
  }

  /** The rows of a new evaluation are there to answer with. */
  lemma NewRows(s: State, x: Experiment, h: Hypothesis, auth: S.Auth, phase: EvidencePhase, a: Assessment, d: Decision,
                prior: Option<Belief>, ids: Ids, now: Time)
    requires |ids.entities| >= 4 && |ids.events| >= 4
    ensures var t := EvaluatedTables(s, x, h, auth, phase, a, d, prior, ids, now);
            ids.entities[0] in t.evidence && ids.entities[1] in t.beliefs && x.id in t.progress
  {
    hide ExperimentStatus, AppendLearning, LearningRow, EvidenceRow;
  }

  /** A rejected transaction leaves the store as it was. */
  function Committed(s: State, r: Result<State, EpistemicError>): State { if r.Ok? then r.value else s }

  function Answer(r: Result<State, EpistemicError>, id: string): Result<string, EpistemicError> {
    if r.Ok? then Ok(id) else Err(r.error)
  }

  /** A rejection part of the way through is the outcome of the whole batch. */
  lemma {:induction false} FirstRejectionStands(l: Ledger, drafts: seq<Draft>, n: nat)
    requires n <= |drafts| && S.AppendMany(l, drafts[..n]).Err?
    ensures S.AppendMany(l, drafts) == S.AppendMany(l, drafts[..n])
  {
    hide AppendOne;
    if n == |drafts| {
      assert drafts[..n] == drafts;
    } else {
      assert drafts[..|drafts| - 1][..n] == drafts[..n];
      FirstRejectionStands(l, drafts[..|drafts| - 1], n);
    }
  }
}
