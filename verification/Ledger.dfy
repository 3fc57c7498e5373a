/**
 * The append-only event log shared by every state machine of the engine: events, the per-stream
 * heads that serialise writers, and the transactional append.
 *
 * Hashes are symbolic: SHA-256 over the canonical text is a constructor over the material it digests,
 * so two digests are equal exactly when their materials and predecessors are.
 */
module Ledger {
  import opened Common

  /** UTC instants in microseconds. */
  type Time = int

  const SECOND: Time := 1_000_000
  const DAY: Time := 86_400 * SECOND

  /** One integrity stream: every event of one application of one owner of one tenant. */
  datatype StreamKey = StreamKey(tenantId: string, ownerId: string, applicationId: string)

  /** The engine's own governance stream. */
  const SYSTEM_KEY := StreamKey("tnt_system", "usr_system", "app_system")

  datatype ActorType = HUMAN | APPLICATION | SERVICE | AI_AGENT | SYSTEM | ENGINE | LLM

  datatype Actor = Actor(actorType: ActorType, actorId: string)

  const SYSTEM_ACTOR := Actor(SYSTEM, "engine-system")

  /** The registered event types, and everything outside the catalog. */
  datatype EventType =
    | ApplicationRegistered | ApplicationCredentialCreated | ApplicationCredentialRotated
    | ApplicationCredentialRevoked | UserRegistered | PermissionGranted | PermissionRevoked
    | ObservationAccepted
    | ProjectionRebuilt | ProjectionCheckpointCreated
    | IntegrityCheckCompleted | IntegrityViolationDetected | IntegrityStreamQuarantined
    | IntegrityStreamVerified | IntegrityStreamReleased
    | HypothesisProposed | HypothesisActivated | HypothesisRetired
    | ExperimentRegistered | ExperimentObservationWindowOpened
    | EvidenceEvaluated | BeliefCreated | BeliefUpdated | OutcomeEvaluated | LearningRecorded
    | ExperimentCompleted | ExperimentExpiredInconclusive
    | Unregistered(name: string)

  /** A JSON value, as carried in contexts and metadata. */
  datatype Json =
    | JNull | JBool(b: bool) | JNumber(n: real) | JString(s: string)
    | JArray(items: seq<Json>) | JObject(fields: map<string, Json>)

  datatype UnknownReason =
    | MISSING_DATA | CONTRADICTORY_DATA | NOT_MEASURABLE_DIRECTLY | INHERENT_RANDOMNESS
    | METHOD_LIMITATION | OUT_OF_DISTRIBUTION | STALE_EVIDENCE | INSUFFICIENT_POWER

  /** The observation contract: the payload of ObservationAccepted. */
  datatype Observation = Observation(
    id: string, schemaVersion: string, domainPack: string, subject: string, statement: string,
    knowledgeClass: string, unknownReason: Option<UnknownReason>, observedBy: string,
    context: map<string, Json>, sourceIds: seq<string>, metadata: map<string, Json>,
    occurredAt: Option<Time>, createdAt: Time, auditId: string)

  /** Human-confirmed protocol parameters of an experiment. */
  datatype Parameters = Parameters(
    sleepThreshold: real, meaningfulDifference: real, prospectiveTarget: int, maximumWindowDays: int)

  datatype EvidencePhase = BASELINE_EXPLORATORY | PROSPECTIVE_VALIDATION

  datatype BeliefState =
    | INSUFFICIENT_EVIDENCE | EXPLORATORY_POSITIVE | EXPLORATORY_NEGATIVE | EXPLORATORY_INCONCLUSIVE
    | PROSPECTIVE_COLLECTING | PROSPECTIVE_SUPPORTED | PROSPECTIVE_WEAKENED | PROSPECTIVE_INCONCLUSIVE
    | EXPIRED_INCONCLUSIVE

  datatype Confidence = VERY_LOW | LOW | MODERATE | HIGH | VERY_HIGH

  /** The numbers a belief reports. */
  datatype Estimate = Estimate(
    modelProbability: real, intervalLow: real, intervalHigh: real, effect: real, meaningfulDifference: real)

  datatype Payload =
    | ObservationPayload(observation: Observation)
    | ProposalPayload(hypothesisId: string, proposed: Option<Parameters>, humanConfirmed: bool)
    | ActivationPayload(hypothesisId: string, experimentId: string, parameters: Parameters, activatedAt: Time)
    | RetirementPayload(hypothesisId: string, reason: string)
    | RegistrationPayload(experimentId: string, hypothesisId: string, parameters: Parameters,
                          minimumGroupSize: int, registeredAt: Time)
    | WindowPayload(experimentId: string, hypothesisId: string)
    | EvidencePayload(evidenceId: string, hypothesisId: string, experimentId: string, phase: EvidencePhase,
                      eligible: nat, excluded: nat, sufficient: nat, below: nat,
                      beliefState: BeliefState, terminal: bool)
    | BeliefPayload(beliefId: string, hypothesisId: string, evidenceId: string,
                    previousBeliefId: Option<string>, beliefState: BeliefState, estimate: Estimate,
                    dataConfidence: Confidence, conclusionConfidence: Confidence)
    | OutcomePayload(outcomeId: string, hypothesisId: string, experimentId: string,
                     priorBeliefId: Option<string>, evidenceId: string, outcomeState: BeliefState)
    | LearningPayload(learningId: string, hypothesisId: string, previousBeliefId: Option<string>,
                      newBeliefId: string, outcomeId: string, text: string)
    | ClosurePayload(experimentId: string, finalBeliefState: Option<BeliefState>)
    | OtherPayload(text: string)

  /** The schema check of the catalog, for the payloads the model distinguishes. */
  predicate PayloadFits(t: EventType, p: Payload) {
    match t
    case ObservationAccepted => p.ObservationPayload?
    case HypothesisProposed => p.ProposalPayload?
    case HypothesisActivated => p.ActivationPayload?
    case HypothesisRetired => p.RetirementPayload?
    case ExperimentRegistered => p.RegistrationPayload?
    case ExperimentObservationWindowOpened => p.WindowPayload?
    case EvidenceEvaluated => p.EvidencePayload?
    case BeliefCreated => p.BeliefPayload?
    case BeliefUpdated => p.BeliefPayload? && p.previousBeliefId.Some?
    case OutcomeEvaluated => p.OutcomePayload?
    case LearningRecorded => p.LearningPayload?
    case ExperimentCompleted => p.ClosurePayload?
    case ExperimentExpiredInconclusive => p.ClosurePayload?
    case Unregistered(_) => false
    case _ => p.OtherPayload?
  }

  datatype Aggregate = Aggregate(key: StreamKey, aggregateType: string, aggregateId: string)

  /** The fifteen canonical fields and the actor: everything a hash covers besides its predecessor. */
  datatype Material = Material(
    eventId: string, eventType: EventType, schemaVersion: string,
    aggregateType: string, aggregateId: string, aggregateVersion: nat,
    domainPack: string, tenantId: string, ownerId: string, applicationId: string,
    occurredAt: Time, recordedAt: Time, auditId: string, requestId: string,
    payload: Payload, actor: Actor)
  {
    function Key(): StreamKey { StreamKey(tenantId, ownerId, applicationId) }

    function AggregateRef(): Aggregate { Aggregate(Key(), aggregateType, aggregateId) }
  }

  /** A stored hash: a genuine digest, or any other text found in the column. */
  datatype Digest = Sha(material: Material, previous: Option<Digest>) | Text(text: string)

  /** An event before persistence. The idempotency key is not part of the hashed material. */
  datatype Draft = Draft(material: Material, idempotencyKey: Option<string>)

  /** A persisted event. Hashes are absent only on events recorded before the chain existed. */
  datatype EngineEvent = EngineEvent(
    material: Material, idempotencyKey: Option<string>,
    previousHash: Option<Digest>, hash: Option<Digest>, position: nat)
  {
    function Key(): StreamKey { material.Key() }
  }

  function ComputeEventHash(m: Material, previous: Option<Digest>): Digest { Sha(m, previous) }

  datatype StreamStatus = ACTIVE | QUARANTINED | REBUILD_REQUIRED

  datatype StreamHead = StreamHead(
    lastPosition: nat, lastEventId: Option<string>, hash: Option<Digest>, version: nat,
    status: StreamStatus, brokenEventId: Option<string>)

  const NEW_HEAD := StreamHead(0, None, None, 0, ACTIVE, None)

  /** The event table in position order, the next position the database will assign, and the heads. */
  datatype Ledger = Ledger(log: seq<EngineEvent>, next: nat, heads: map<StreamKey, StreamHead>)

  const EMPTY := Ledger([], 1, map[])

  datatype AppendError =
    | StreamQuarantined | PayloadInvalid | ConcurrencyConflict | DuplicateEventId | IdempotencyRace

  /** Positions ascend and lie below the next one to be assigned. */
  ghost predicate Ordered(log: seq<EngineEvent>, next: nat) {
    && (forall i, j :: 0 <= i < j < |log| ==> log[i].position < log[j].position)
    && (forall i :: 0 <= i < |log| ==> 0 < log[i].position < next)
  }

  function HeadOf(l: Ledger, k: StreamKey): StreamHead {
    if k in l.heads then l.heads[k] else NEW_HEAD
  }

  function LatestVersion(log: seq<EngineEvent>, a: Aggregate): nat {
    if |log| == 0 then 0
    else
      var e, rest := log[|log| - 1], LatestVersion(log[..|log| - 1], a);
      if e.material.AggregateRef() == a && e.material.aggregateVersion > rest
      then e.material.aggregateVersion else rest
  }

  predicate HasEventId(log: seq<EngineEvent>, id: string) {
    exists i :: 0 <= i < |log| && log[i].material.eventId == id
  }

  /** The unique key on keyed events: application and key only, under one constant scope. */
  predicate KeyTaken(log: seq<EngineEvent>, application: string, key: Option<string>) {
    && key.Some? && key.value != ""
    && exists i :: 0 <= i < |log| && log[i].idempotencyKey == key && log[i].material.applicationId == application
  }

  function Persist(l: Ledger, d: Draft): EngineEvent {
    var previous := HeadOf(l, d.material.Key()).hash;
    EngineEvent(d.material, d.idempotencyKey, previous, Some(ComputeEventHash(d.material, previous)), l.next)
  }

  function Advance(h: StreamHead, e: EngineEvent): StreamHead {
    h.(lastPosition := e.position, lastEventId := Some(e.material.eventId), hash := e.hash, version := h.version + 1)
  }

  /** One append inside a transaction: reject, validate, chain onto the head, insert, advance the head. */
  function AppendOne(l: Ledger, d: Draft): (r: Result<Ledger, AppendError>)
    ensures r.Ok? ==> r.value.log == l.log + [Persist(l, d)]
  {
    var key := d.material.Key();
    var head := HeadOf(l, key);
    if head.status == QUARANTINED then Err(StreamQuarantined)
    else if !PayloadFits(d.material.eventType, d.material.payload) then Err(PayloadInvalid)
    else if LatestVersion(l.log, d.material.AggregateRef()) + 1 != d.material.aggregateVersion then
      Err(ConcurrencyConflict)
    else if HasEventId(l.log, d.material.eventId) then Err(DuplicateEventId)
    else if KeyTaken(l.log, d.material.applicationId, d.idempotencyKey) then Err(IdempotencyRace)
    else
      var e := Persist(l, d);
      Ok(Ledger(l.log + [e], l.next + 1, l.heads[key := Advance(head, e)]))
  }

  /** An event the engine writes about itself, at the next version of its aggregate. */
  function SystemDraft(l: Ledger, t: EventType, aggregateType: string, aggregateId: string, text: string,
                       eventId: string, auditId: string, now: Time): Draft
  {
    var version := LatestVersion(l.log, Aggregate(SYSTEM_KEY, aggregateType, aggregateId)) + 1;
    Draft(Material(eventId, t, "1.0", aggregateType, aggregateId, version, "core",
                   SYSTEM_KEY.tenantId, SYSTEM_KEY.ownerId, SYSTEM_KEY.applicationId,
                   now, now, auditId, auditId, OtherPayload(text), SYSTEM_ACTOR), None)
  }

  /** The events of one stream in position order, as stream_for_stream_key lists them. */
  function Stream(log: seq<EngineEvent>, k: StreamKey, from: nat): (s: seq<EngineEvent>)
    ensures forall e :: e in s <==> e in log && e.Key() == k && e.position > from
  {
    if |log| == 0 then []
    else
      var rest, e := Stream(log[..|log| - 1], k, from), log[|log| - 1];
      assert log == log[..|log| - 1] + [e];
      if e.Key() == k && e.position > from then rest + [e] else rest
  }
}
