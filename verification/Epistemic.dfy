/**
 * The epistemic loop: hypotheses proposed, activated, evaluated and retired; the read model each
 * transaction keeps, and the same read model replayed from the log.
 *
 * A transaction reads from the state it saw and commits onto the state it finds; an atomic
 * transaction saw the state it finds.
 */
module Epistemic {
  import opened Common
  import opened Ledger
  import opened Evaluation
  import opened Submission

  datatype HypothesisStatus = PROPOSED | ACTIVE | OBSERVING | EVALUATED | RETIRED

  datatype Hypothesis = Hypothesis(
    id: string, key: StreamKey, status: HypothesisStatus, humanConfirmed: bool, parameters: Option<Parameters>,
    proposedAt: Time, activatedAt: Option<Time>, retiredAt: Option<Time>, experimentId: Option<string>,
    auditId: string, eventId: string, position: nat, updatedAt: Time)

  /** What an experiment fixes before any evidence is seen. */
  datatype Protocol = Protocol(
    baselineCutoff: Time, prospectiveStart: Time, target: int, maximumWindowDays: int,
    minimumGroupSize: int, meaningfulDifference: real, sleepThreshold: real)

  /** Where in the log, and when, the experiment was activated. */
  datatype Anchor = Anchor(eventId: string, position: nat, recordedAt: Time)

  datatype Experiment = Experiment(
    id: string, key: StreamKey, hypothesisId: string, protocol: Protocol, status: string, preRegisteredAt: Time,
    auditId: string, eventId: string, position: nat, updatedAt: Time, anchor: Anchor)

  datatype Belief = Belief(
    id: string, key: StreamKey, hypothesisId: string, evidenceId: string, previousBeliefId: Option<string>,
    state: BeliefState, estimate: Estimate, dataConfidence: Confidence, conclusionConfidence: Confidence,
    isCurrent: bool, createdAt: Time, auditId: string, eventId: string, position: nat)

  datatype Evidence = Evidence(
    id: string, key: StreamKey, hypothesisId: string, experimentId: string, phase: EvidencePhase,
    eligible: nat, excluded: nat, sufficient: nat, below: nat, state: BeliefState, generatedAt: Time,
    auditId: string, eventId: string, position: nat, fingerprint: Option<string>, terminal: bool)

  datatype Counts = Counts(eligible: nat, sufficient: nat, below: nat)

  /** A belief state by its name, or the text "None" that a completion without a final state leaves. */
  datatype StateText = Named(state: BeliefState) | NoneText

  datatype Progress = Progress(
    experimentId: string, hypothesisId: string, key: StreamKey, baseline: Counts, prospective: Counts, target: int,
    windowDaysRemaining: int, status: string, beliefState: Option<StateText>, lastEvaluatedAt: Option<Time>,
    updatedAt: Time, targetRemaining: Option<int>, terminal: bool)

  datatype Learning = Learning(
    id: string, key: StreamKey, hypothesisId: string, previousBeliefId: Option<string>, newBeliefId: string,
    outcomeId: string, text: string, createdAt: Time, auditId: string, eventId: string, position: nat)

  datatype Tables = Tables(
    hypotheses: map<string, Hypothesis>, experiments: map<string, Experiment>, beliefs: map<string, Belief>,
    evidence: map<string, Evidence>, progress: map<string, Progress>, learning: map<string, Learning>)

  const NO_ROWS := Tables(map[], map[], map[], map[], map[], map[])

  datatype State = State(ledger: Ledger, tables: Tables)

  // ---- replay -------------------------------------------------------------------------------

  predicate IsIgnored(t: EventType) {
    match t
    case HypothesisProposed => false
    case HypothesisActivated => false
    case HypothesisRetired => false
    case ExperimentRegistered => false
    case ExperimentObservationWindowOpened => false
    case EvidenceEvaluated => false
    case BeliefCreated => false
    case BeliefUpdated => false
    case OutcomeEvaluated => false
    case LearningRecorded => false
    case ExperimentCompleted => false
    case ExperimentExpiredInconclusive => false
    case Unregistered(_) => false
    case _ => true
  }

  /** Replay stops at a type outside the catalog. */
  predicate Handled(e: EngineEvent) {
    IsIgnored(e.material.eventType) || PayloadFits(e.material.eventType, e.material.payload)
  }

  function OnProposed(t: Tables, e: EngineEvent): Tables
    requires e.material.payload.ProposalPayload?
  {
    var m, p := e.material, e.material.payload;
    t.(hypotheses := t.hypotheses[p.hypothesisId :=
      Hypothesis(p.hypothesisId, e.Key(), PROPOSED, p.humanConfirmed, p.proposed, m.occurredAt, None, None, None,
                 m.auditId, m.eventId, e.position, m.occurredAt)])
  }

  function OnActivated(t: Tables, e: EngineEvent): Tables
    requires e.material.payload.ActivationPayload?
  {
    var m, p := e.material, e.material.payload;
    if p.hypothesisId !in t.hypotheses then t
    else
      t.(hypotheses := t.hypotheses[p.hypothesisId := t.hypotheses[p.hypothesisId].(
        status := HypothesisStatus.ACTIVE, humanConfirmed := true, parameters := Some(p.parameters),
            activatedAt := Some(m.occurredAt),
        experimentId := Some(p.experimentId), auditId := m.auditId, eventId := m.eventId, position := e.position,
        updatedAt := m.occurredAt)])
  }

  function OnRetired(t: Tables, e: EngineEvent): Tables
    requires e.material.payload.RetirementPayload?
  {
    var m, p := e.material, e.material.payload;
    if p.hypothesisId !in t.hypotheses then t
    else
      t.(hypotheses := t.hypotheses[p.hypothesisId := t.hypotheses[p.hypothesisId].(
        status := RETIRED, retiredAt := Some(m.occurredAt), auditId := m.auditId, eventId := m.eventId,
        position := e.position, updatedAt := m.occurredAt)])
  }

  function RegisteredProtocol(p: Payload): Protocol
    requires p.RegistrationPayload?
  {
    Protocol(p.registeredAt, p.registeredAt, p.parameters.prospectiveTarget, p.parameters.maximumWindowDays,
             p.minimumGroupSize, p.parameters.meaningfulDifference, p.parameters.sleepThreshold)
  }

  /** Replay anchors the experiment at its registration, the event after the activation. */
  function OnRegistered(t: Tables, e: EngineEvent): Tables
    requires e.material.payload.RegistrationPayload?
  {
    var m, p := e.material, e.material.payload;
    t.(experiments := t.experiments[p.experimentId :=
         Experiment(p.experimentId, e.Key(), p.hypothesisId, RegisteredProtocol(p), "REGISTERED", m.occurredAt,
                    m.auditId,
                    m.eventId, e.position, m.occurredAt, Anchor(m.eventId, e.position, m.occurredAt))],
       progress := t.progress[p.experimentId :=
         Progress(p.experimentId, p.hypothesisId, e.Key(), Counts(0, 0, 0), Counts(0, 0, 0),
                  p.parameters.prospectiveTarget, p.parameters.maximumWindowDays, "REGISTERED", None, None,
                  m.occurredAt, None, false)])
  }

  function WithStatus(t: Tables, experimentId: string, status: string, state: Option<StateText>, at: Time): Tables {
    var u := if experimentId !in t.experiments then t
             else t.(experiments :=
                     t.experiments[experimentId := t.experiments[experimentId].(status := status, updatedAt := at)]);
    if experimentId !in t.progress then u
    else u.(progress := t.progress[experimentId := t.progress[experimentId].(status := status, updatedAt := at,
              beliefState := if state.Some? then state else t.progress[experimentId].beliefState)])
  }

  function FinalText(state: Option<BeliefState>): StateText { if state.Some? then Named(state.value) else NoneText }

  function OnEvidence(t: Tables, e: EngineEvent): Tables
    requires e.material.payload.EvidencePayload?
  {
    var m, p := e.material, e.material.payload;
    var row := Evidence(p.evidenceId, e.Key(), p.hypothesisId, p.experimentId, p.phase, p.eligible, p.excluded,
                        p.sufficient, p.below, p.beliefState, m.occurredAt, m.auditId, m.eventId, e.position, None,
                            false);
    var u := t.(evidence := t.evidence[p.evidenceId := row]);
    if p.experimentId !in t.progress then u
    else
      var was, counts := t.progress[p.experimentId], Counts(p.eligible, p.sufficient, p.below);
      u.(progress := t.progress[p.experimentId := was.(
        status := "IN_PROGRESS", beliefState := Some(Named(p.beliefState)), lastEvaluatedAt := Some(m.occurredAt),
        updatedAt := m.occurredAt,
        baseline := if p.phase.BASELINE_EXPLORATORY? then counts else was.baseline,
        prospective := if p.phase.BASELINE_EXPLORATORY? then was.prospective else counts)])
  }

  /** Every belief of the hypothesis stops being current. */
  function Demoted(beliefs: map<string, Belief>, hypothesisId: string): map<string, Belief> {
    map id | id in beliefs ::
      if beliefs[id].hypothesisId == hypothesisId && beliefs[id].isCurrent then Demote(beliefs[id]) else beliefs[id]
  }

  function Demote(b: Belief): Belief { b.(isCurrent := false) }

  function ReplayedBelief(e: EngineEvent): Belief
    requires e.material.payload.BeliefPayload?
  {
    var m, p := e.material, e.material.payload;
    Belief(p.beliefId, e.Key(), p.hypothesisId, p.evidenceId, p.previousBeliefId, p.beliefState, p.estimate,
           p.dataConfidence, p.conclusionConfidence, true, m.occurredAt, m.auditId, m.eventId, e.position)
  }

  function OnBelief(t: Tables, e: EngineEvent): Tables
    requires e.material.payload.BeliefPayload?
  {
    var row := ReplayedBelief(e);
    t.(beliefs := Demoted(t.beliefs, row.hypothesisId)[row.id := row])
  }

  function ReplayedLearning(e: EngineEvent): Learning
    requires e.material.payload.LearningPayload?
  {
    var m, p := e.material, e.material.payload;
    Learning(p.learningId, e.Key(), p.hypothesisId, p.previousBeliefId, p.newBeliefId, p.outcomeId, p.text,
             m.occurredAt, m.auditId, m.eventId, e.position)
  }

  function OnLearning(t: Tables, e: EngineEvent): Tables
    requires e.material.payload.LearningPayload?
  {
    t.(learning := t.learning[ReplayedLearning(e).id := ReplayedLearning(e)])
  }

  function Apply(t: Tables, e: EngineEvent): Tables {
    var m := e.material;
    if IsIgnored(m.eventType) || !PayloadFits(m.eventType, m.payload) then t
    else
      match m.eventType
      case HypothesisProposed => OnProposed(t, e)
      case HypothesisActivated => OnActivated(t, e)
      case HypothesisRetired => OnRetired(t, e)
      case ExperimentRegistered => OnRegistered(t, e)
      case ExperimentObservationWindowOpened => WithStatus(t, m.payload.experimentId, "IN_PROGRESS", None, m.occurredAt)
      case EvidenceEvaluated => OnEvidence(t, e)
      case BeliefCreated => OnBelief(t, e)
      case BeliefUpdated => OnBelief(t, e)
      case LearningRecorded => OnLearning(t, e)
      case ExperimentCompleted => WithStatus(t, m.payload.experimentId, "COMPLETED",
                                             Some(FinalText(m.payload.finalBeliefState)), m.occurredAt)
      case ExperimentExpiredInconclusive => WithStatus(t, m.payload.experimentId, "EXPIRED", None, m.occurredAt)
      case _ => t
  }

  function Replay(log: seq<EngineEvent>): Tables {
    if |log| == 0 then NO_ROWS else Apply(Replay(log[..|log| - 1]), log[|log| - 1])
  }

  // ---- the store ----------------------------------------------------------------------------

  /** The store's belief upsert: demote within the row's hypothesis, owner and application, then write. */
  function UpsertBelief(beliefs: map<string, Belief>, row: Belief): map<string, Belief> {
    (map id | id in beliefs :: if SameChain(beliefs[id], row) then Demote(beliefs[id]) else beliefs[id])[row.id := row]
  }

  predicate SameChain(a: Belief, b: Belief) {
    a.hypothesisId == b.hypothesisId && a.key.ownerId == b.key.ownerId && a.key.applicationId == b.key.applicationId
  }

  function AppendLearning(learning: map<string, Learning>, row: Learning): map<string, Learning> {
    if row.id in learning then learning else learning[row.id := row]
  }

  predicate Scoped(key: StreamKey, auth: Auth) {
    key.ownerId == auth.ownerId && key.applicationId == auth.applicationId
  }

  /** `prior` is what reading the current belief of the hypothesis returns. */
  ghost predicate ReadsCurrent(beliefs: map<string, Belief>, auth: Auth, hypothesisId: string, prior: Option<Belief>) {
    match prior
    case Some(b) => b.id in beliefs && beliefs[b.id] == b && IsCurrentOf(b, auth, hypothesisId)
    case None => forall id :: id in beliefs ==> !IsCurrentOf(beliefs[id], auth, hypothesisId)
  }

  predicate IsCurrentOf(b: Belief, auth: Auth, hypothesisId: string) {
    b.hypothesisId == hypothesisId && Scoped(b.key, auth) && b.isCurrent
  }

  // ---- transactions -------------------------------------------------------------------------

  datatype EpistemicError =
    | HypothesisNotFound | HypothesisStateInvalid | ExperimentNotFound | Rejected(cause: AppendError)

  function DraftFor(auth: Auth, t: EventType, aggregateType: string, aggregateId: string, version: nat,
                    payload: Payload, eventId: string, auditId: string, requestId: string,
                    key: Option<string>, now: Time): Draft
  {
    Draft(Material(eventId, t, "1.0", aggregateType, aggregateId, version, "life", auth.tenantId, auth.ownerId,
                   auth.applicationId, now, now, auditId, requestId, payload, auth.Caller()), key)
  }

  function AppendSeq(l: Ledger, drafts: seq<Draft>): Result<Ledger, EpistemicError> {
    var r := AppendMany(l, drafts);
    if r.Err? then Err(Rejected(r.error)) else Ok(r.value)
  }

  /** The drawn ids: one per entity and per event of the transaction. */
  datatype Ids = Ids(auditId: string, requestId: string, key: string, entities: seq<string>, events: seq<string>)

  function FindHypothesis(t: Tables, auth: Auth, id: string): Option<Hypothesis> {
    if id in t.hypotheses && Scoped(t.hypotheses[id].key, auth) then Some(t.hypotheses[id]) else None
  }

  function FindExperiment(t: Tables, auth: Auth, id: string): Option<Experiment> {
    if id in t.experiments && Scoped(t.experiments[id].key, auth) then Some(t.experiments[id]) else None
  }

  function NextVersion(s: State, auth: Auth, aggregateType: string, id: string): nat {
    LatestVersion(s.ledger.log, Aggregate(auth.Key(), aggregateType, id)) + 1
  }

  function Propose(s: State, auth: Auth, proposed: Option<Parameters>, confirmed: bool, ids: Ids,
                   now: Time): Result<State, EpistemicError>
    requires |ids.entities| >= 1 && |ids.events| >= 1
  {
    var id := ids.entities[0];
    var ledger :- AppendSeq(s.ledger, [
      DraftFor(auth, HypothesisProposed, "Hypothesis", id, 1, ProposalPayload(id, proposed, confirmed),
               ids.events[0], ids.auditId, ids.requestId, Some(ids.key), now)]);
    var row := Hypothesis(id, auth.Key(), PROPOSED, confirmed, proposed, now, None, None, None,
                          ids.auditId, ids.events[0], s.ledger.next, now);
    Ok(State(ledger, s.tables.(hypotheses := s.tables.hypotheses[id := row])))
  }

  /** `seen` is what the status read saw, `version` what the version read returned. */
  function Activate(seen: State, version: nat, s: State, auth: Auth, hypothesisId: string, p: Parameters, ids: Ids,
                    now: Time): Result<State, EpistemicError>
    requires |ids.entities| >= 1 && |ids.events| >= 3
  {
    var found := FindHypothesis(seen.tables, auth, hypothesisId);
    if found.None? then Err(HypothesisNotFound)
    else if found.value.status != PROPOSED then Err(HypothesisStateInvalid)
    else
      var x, at := ids.entities[0], s.ledger.next;
      var ledger :- AppendSeq(s.ledger, ActivationDrafts(auth, version, hypothesisId, p, ids, now));
      var hypothesis := found.value.(status := HypothesisStatus.ACTIVE, humanConfirmed := true, parameters := Some(p),
                                     activatedAt := Some(now),
                                     retiredAt := None, experimentId := Some(x), auditId := ids.auditId,
                                     eventId := ids.events[0], position := at, updatedAt := now);
      var protocol := Protocol(now, now, p.prospectiveTarget, p.maximumWindowDays, PROSPECTIVE_GROUP,
                               p.meaningfulDifference, p.sleepThreshold);
      var experiment := Experiment(x, auth.Key(), hypothesisId, protocol, "REGISTERED", now, ids.auditId, ids.events[1],
                                   at + 1, now, Anchor(ids.events[0], at, now));
      var progress := Progress(x, hypothesisId, auth.Key(), Counts(0, 0, 0), Counts(0, 0, 0), p.prospectiveTarget,
                               p.maximumWindowDays, "COLLECTING_BASELINE", None, None, now, Some(p.prospectiveTarget),
                                   false);
      Ok(State(ledger, s.tables.(hypotheses := s.tables.hypotheses[hypothesisId := hypothesis],
                                 experiments := s.tables.experiments[x := experiment],
                                 progress := s.tables.progress[x := progress])))
  }

  function ActivationDrafts(auth: Auth, version: nat, hypothesisId: string, p: Parameters, ids: Ids,
                            now: Time): seq<Draft>
    requires |ids.entities| >= 1 && |ids.events| >= 3
  {
    var x := ids.entities[0];
    [DraftFor(auth, HypothesisActivated, "Hypothesis", hypothesisId, version,
              ActivationPayload(hypothesisId, x, p, now),
              ids.events[0], ids.auditId, ids.requestId, Some(ids.key), now),
     DraftFor(auth, ExperimentRegistered, "Experiment", x, 1,
              RegistrationPayload(x, hypothesisId, p, PROSPECTIVE_GROUP, now),
              ids.events[1], ids.auditId, ids.requestId, None, now),
     DraftFor(auth, ExperimentObservationWindowOpened, "Experiment", x, 2, WindowPayload(x, hypothesisId),
              ids.events[2], ids.auditId, ids.requestId, None, now)]
  }

  function Retire(seen: State, version: nat, s: State, auth: Auth, hypothesisId: string, reason: string, ids: Ids,
                  now: Time): Result<State, EpistemicError>
    requires |ids.events| >= 1
  {
    var found := FindHypothesis(seen.tables, auth, hypothesisId);
    if found.None? then Err(HypothesisNotFound)
    else if found.value.status == RETIRED then Err(HypothesisStateInvalid)
    else
      var ledger :- AppendSeq(s.ledger, [
        DraftFor(auth, HypothesisRetired, "Hypothesis", hypothesisId, version, RetirementPayload(hypothesisId, reason),
                 ids.events[0], ids.auditId, ids.requestId, Some(ids.key), now)]);
      var row := found.value.(status := RETIRED, retiredAt := Some(now), auditId := ids.auditId,
                              eventId := ids.events[0], position := s.ledger.next, updatedAt := now);
      Ok(State(ledger, s.tables.(hypotheses := s.tables.hypotheses[hypothesisId := row])))
  }

  // ---- evaluation ---------------------------------------------------------------------------

  /** What cohort selection, the bootstrap and the classifier hand to the evaluation: anything at all. */
  datatype Assessment = Assessment(
    eligible: nat, excluded: nat, baseline: Counts, prospective: Counts, critical: bool, fingerprint: string,
    classified: BeliefState, estimate: Estimate, learningText: string)

  datatype Evaluated = Evaluated(state: State, replayed: bool)

  function Deadline(x: Experiment): Time { x.protocol.prospectiveStart + x.protocol.maximumWindowDays * DAY }

  function CohortOf(phase: EvidencePhase, a: Assessment): Counts {
    if phase.BASELINE_EXPLORATORY? then a.baseline else a.prospective
  }

  function DecisionFor(x: Experiment, phase: EvidencePhase, a: Assessment, now: Time): Decision {
    Decide(phase, a.classified, a.critical, phase.PROSPECTIVE_VALIDATION? && now > Deadline(x))
  }

  function DataConfidence(total: nat): Confidence { if total < 14 then LOW else if total < 30 then MODERATE else HIGH }

  function ConclusionConfidence(s: BeliefState): Confidence {
    if s.INSUFFICIENT_EVIDENCE? then VERY_LOW
    else if s.PROSPECTIVE_SUPPORTED? || s.PROSPECTIVE_WEAKENED? then MODERATE
    else LOW
  }

  /** The row a fingerprint lookup matches. */
  predicate Bears(e: Evidence, auth: Auth, experimentId: string, phase: EvidencePhase, fingerprint: string) {
    Scoped(e.key, auth) && e.experimentId == experimentId && e.phase == phase && e.fingerprint == Some(fingerprint)
  }

  predicate FingerprintTaken(t: Tables, auth: Auth, experimentId: string, phase: EvidencePhase, fingerprint: string) {
    exists id :: id in t.evidence && Bears(t.evidence[id], auth, experimentId, phase, fingerprint)
  }

  function EvidenceRow(x: Experiment, auth: Auth, phase: EvidencePhase, a: Assessment, d: Decision, ids: Ids,
                       position: nat, now: Time): Evidence
    requires |ids.entities| >= 1 && |ids.events| >= 1
  {
    var c := CohortOf(phase, a);
    Evidence(ids.entities[0], auth.Key(), x.hypothesisId, x.id, phase, a.eligible, a.excluded, c.sufficient, c.below,
             d.state, now, ids.auditId, ids.events[0], position, Some(a.fingerprint), d.terminal)
  }

  function BeliefRow(x: Experiment, auth: Auth, phase: EvidencePhase, a: Assessment, d: Decision, prior: Option<Belief>,
                     ids: Ids, position: nat, now: Time): Belief
    requires |ids.entities| >= 2 && |ids.events| >= 2
  {
    var c := CohortOf(phase, a);
    Belief(ids.entities[1], auth.Key(), x.hypothesisId, ids.entities[0], if prior.Some? then Some(prior.value.id)
           else None,
           d.state, a.estimate, DataConfidence(c.sufficient + c.below), ConclusionConfidence(d.state), true, now,
           ids.auditId, ids.events[1], position)
  }

  function LearningRow(x: Experiment, auth: Auth, a: Assessment, prior: Option<Belief>, ids: Ids, position: nat,
                       now: Time): Learning
    requires |ids.entities| >= 4 && |ids.events| >= 4
  {
    Learning(ids.entities[3], auth.Key(), x.hypothesisId, if prior.Some? then Some(prior.value.id) else None,
             ids.entities[1], ids.entities[2], a.learningText, now, ids.auditId, ids.events[3], position)
  }

  /** Evidence and belief always; outcome and learning for a terminal evaluation. */
  function EvaluationDrafts(x: Experiment, auth: Auth, phase: EvidencePhase, a: Assessment, d: Decision,
                            prior: Option<Belief>, ids: Ids, now: Time): seq<Draft>
    requires |ids.entities| >= 4 && |ids.events| >= 4
  {
    var c, h := CohortOf(phase, a), x.hypothesisId;
    var priorId := if prior.Some? then Some(prior.value.id) else None;
    var evidenceId, beliefId, outcomeId, learningId := ids.entities[0], ids.entities[1], ids.entities[2],
        ids.entities[3];
    var always := [
      DraftFor(auth, EvidenceEvaluated, "Evidence", evidenceId, 1,
               EvidencePayload(evidenceId, h, x.id, phase, a.eligible, a.excluded, c.sufficient, c.below, d.state,
                               d.terminal),
               ids.events[0], ids.auditId, ids.requestId, Some(ids.key), now),
      DraftFor(auth, if prior.None? then BeliefCreated else BeliefUpdated, "Belief", beliefId, 1,
               BeliefPayload(beliefId, h, evidenceId, priorId, d.state, a.estimate,
                             DataConfidence(c.sufficient + c.below), ConclusionConfidence(d.state)),
               ids.events[1], ids.auditId, ids.requestId, None, now)];
    if phase.PROSPECTIVE_VALIDATION? && d.terminal && IsTerminalState(d.state) then
      always + [
        DraftFor(auth, OutcomeEvaluated, "Outcome", outcomeId, 1,
                 OutcomePayload(outcomeId, h, x.id, priorId, evidenceId, d.state),
                 ids.events[2], ids.auditId, ids.requestId, None, now),
        DraftFor(auth, LearningRecorded, "Learning", learningId, 1,
                 LearningPayload(learningId, h, priorId, beliefId, outcomeId, a.learningText),
                 ids.events[3], ids.auditId, ids.requestId, None, now)]
    else always
  }

  function ExperimentStatus(phase: EvidencePhase, d: Decision): string {
    if phase.BASELINE_EXPLORATORY? then "COLLECTING_BASELINE"
    else if !d.terminal then "PROSPECTIVE_COLLECTING"
    else if d.state.PROSPECTIVE_SUPPORTED? then "TERMINAL_SUPPORTED"
    else if d.state.PROSPECTIVE_WEAKENED? then "TERMINAL_WEAKENED"
    else if d.state.EXPIRED_INCONCLUSIVE? then "EXPIRED_INCONCLUSIVE"
    else "TERMINAL_INCONCLUSIVE"
  }

  function Evaluate(seen: State, prior: Option<Belief>, s: State, auth: Auth, experimentId: string,
                    phase: EvidencePhase,
                    a: Assessment, ids: Ids, now: Time): Result<Evaluated, EpistemicError>
    requires |ids.entities| >= 4 && |ids.events| >= 4
  {
    var foundX := FindExperiment(seen.tables, auth, experimentId);
    if foundX.None? then Err(ExperimentNotFound)
    else
      var x := foundX.value;
      var foundH := FindHypothesis(seen.tables, auth, x.hypothesisId);
      if foundH.None? then Err(HypothesisNotFound)
      else if foundH.value.status == RETIRED then Err(HypothesisStateInvalid)
      else
        var d := DecisionFor(x, phase, a, now);
        if FingerprintTaken(seen.tables, auth, experimentId, phase, a.fingerprint) then Ok(Evaluated(s, true))
        else
          var ledger :- AppendSeq(s.ledger, EvaluationDrafts(x, auth, phase, a, d, prior, ids, now));
          if FingerprintTaken(s.tables, auth, experimentId, phase, a.fingerprint) then Ok(Evaluated(s, true))
          else Ok(Evaluated(State(ledger, EvaluatedTables(s, x, foundH.value, auth, phase, a, d, prior, ids, now)),
                            false))
  }

  function EvaluatedTables(s: State, x: Experiment, h: Hypothesis, auth: Auth, phase: EvidencePhase, a: Assessment,
                           d: Decision, prior: Option<Belief>, ids: Ids, now: Time): Tables
    requires |ids.entities| >= 4 && |ids.events| >= 4
  {
    var at, status := s.ledger.next, ExperimentStatus(phase, d);
    var remaining := (Deadline(x) - now) / DAY;
    var hypothesis := h.(status := if d.terminal then EVALUATED else OBSERVING, auditId := ids.auditId,
                         eventId := ids.events[0], position := at, updatedAt := now);
    var experiment := x.(status := status, auditId := ids.auditId, eventId := ids.events[0], position := at,
                         updatedAt := now);
    var progress := Progress(x.id, x.hypothesisId, auth.Key(), a.baseline, a.prospective, x.protocol.target,
                             Max(0, remaining),
                             status, Some(Named(d.state)), Some(now), now,
                                 Some(Max(0, x.protocol.target - a.prospective.eligible)), d.terminal);
    Tables(s.tables.hypotheses[h.id := hypothesis], s.tables.experiments[x.id := experiment],
           UpsertBelief(s.tables.beliefs, BeliefRow(x, auth, phase, a, d, prior, ids, at + 1, now)),
           s.tables.evidence[ids.entities[0] := EvidenceRow(x, auth, phase, a, d, ids, at, now)],
           s.tables.progress[x.id := progress],
           if d.terminal then AppendLearning(s.tables.learning, LearningRow(x, auth, a, prior, ids, at + 3, now))
               else s.tables.learning)
  }

  // ---- the answer to an evaluation ----------------------------------------------------------

  /** The rows an answer is made of. */
  datatype EvaluationReply = EvaluationReply(evidence: Evidence, belief: Option<Belief>, progress: Option<Progress>,
                                             replayed: bool)

  function FindProgress(t: Tables, auth: Auth, experimentId: string): Option<Progress> {
    if experimentId in t.progress && Scoped(t.progress[experimentId].key, auth) then Some(t.progress[experimentId])
        else None
  }

  predicate BoundTo(b: Belief, auth: Auth, hypothesisId: string, evidenceId: string) {
    b.hypothesisId == hypothesisId && Scoped(b.key, auth) && b.evidenceId == evidenceId
  }

  /** The first belief bound to the evidence, and the current one only if there is none. */
  ghost predicate PrefersBound(beliefs: map<string, Belief>, auth: Auth, hypothesisId: string, evidenceId: string,
                               current: Option<Belief>, belief: Option<Belief>)
  {
    if exists id :: id in beliefs && BoundTo(beliefs[id], auth, hypothesisId, evidenceId) then
      && belief.Some? && belief.value.id in beliefs && beliefs[belief.value.id] == belief.value
      && BoundTo(belief.value, auth, hypothesisId, evidenceId)
      && forall id :: id in beliefs && BoundTo(beliefs[id], auth, hypothesisId, evidenceId) ==>
           belief.value.position <= beliefs[id].position
    else belief == current
  }

  /**
   * A repeated fingerprint is answered with rows of the table: the evidence that bears it and the belief
   * bound to that.
   */
  ghost predicate AnswersFrom(t: Tables, auth: Auth, x: Experiment, phase: EvidencePhase, fingerprint: string,
                              current: Option<Belief>, r: EvaluationReply)
  {
    && r.replayed && r.evidence.id in t.evidence && t.evidence[r.evidence.id] == r.evidence
    && Bears(r.evidence, auth, x.id, phase, fingerprint)
    && PrefersBound(t.beliefs, auth, x.hypothesisId, r.evidence.id, current, r.belief)
    && r.progress == FindProgress(t, auth, x.id)
  }

  /** A new evaluation is answered with the rows it wrote. */
  predicate AnswersNew(t: Tables, x: Experiment, ids: Ids, r: EvaluationReply)
    requires |ids.entities| >= 2
  {
    && !r.replayed && ids.entities[0] in t.evidence && r.evidence == t.evidence[ids.entities[0]]
    && ids.entities[1] in t.beliefs && r.belief == Some(t.beliefs[ids.entities[1]])
    && x.id in t.progress && r.progress == Some(t.progress[x.id])
  }
}
