/**
 * Submitting an observation: the find / write / race-resolution protocol, its transactions, and the
 * interleaved steps of any number of clients with the rest of the engine.
 */
module Submission {
  import opened Common
  import opened Ledger
  import opened Database
  import Projections

  const SUBMIT := "observations.submit"

  datatype Auth = Auth(tenantId: string, ownerId: string, applicationId: string)
  {
    function Key(): StreamKey { StreamKey(tenantId, ownerId, applicationId) }

    function Caller(): Actor { Actor(APPLICATION, applicationId) }
  }

  datatype Request = Request(auth: Auth, content: Content, key: string, requestId: string)

  /** The ids and the clock reading one write draws. */
  datatype NewIds = NewIds(now: Time, auditId: string, eventId: string, observationId: string)

  datatype Reply = Reply(observationId: string, eventId: string, auditId: string, replayed: bool)

  datatype Found = Missing | Replays(reply: Reply) | Mismatch

  // ---- transactions -------------------------------------------------------------------------

  function ScopeOf(r: Request): Scope { Scope(r.auth.applicationId, r.auth.ownerId, SUBMIT, r.key) }

  function FindExisting(db: Db, r: Request): Found {
    if ScopeOf(r) !in db.records then Missing
    else
      var existing := db.records[ScopeOf(r)];
      if existing.payloadHash != HashOf(r.content) then Mismatch
      else Replays(Reply(existing.primaryId, existing.eventId, existing.auditId, true))
  }

  function ObservationOf(r: Request, f: NewIds): Observation {
    var c := r.content;
    Observation(f.observationId, c.schemaVersion, c.domainPack, c.subject, c.statement, c.knowledgeClass,
                c.unknownReason, c.observedBy, c.context["tenant_id" := JString(r.auth.tenantId)], c.sourceIds,
                c.metadata, c.occurredAt, f.now, f.auditId)
  }

  function DraftOf(r: Request, f: NewIds): Draft {
    var occurred := if r.content.occurredAt.Some? then r.content.occurredAt.value else f.now;
    Draft(Material(f.eventId, ObservationAccepted, "1.0", "Observation", f.observationId, 1, r.content.domainPack,
                   r.auth.tenantId, r.auth.ownerId, r.auth.applicationId, occurred, f.now, f.auditId, r.requestId,
                   ObservationPayload(ObservationOf(r, f)), r.auth.Caller()),
          Some(r.key))
  }

  /** The row the write path stores: its time is the client's, absent when the client gave none. */
  function LiveRow(r: Request, f: NewIds, position: nat): Row {
    var o := ObservationOf(r, f);
    Row(o.id, position, f.eventId, r.auth.tenantId, r.auth.ownerId, r.auth.applicationId, r.content.domainPack,
        o.schemaVersion, o.subject, o.statement, o.knowledgeClass, o.unknownReason, o.observedBy, o.context,
        o.sourceIds, o.metadata, o.occurredAt, o.createdAt, f.auditId)
  }

  /** The write transaction; the two unique keys surface as the race. */
  function Commit(db: Db, r: Request, f: NewIds): Result<Db, AppendError> {
    var ledger :- AppendOne(db.ledger, DraftOf(r, f));
    if ScopeOf(r) in db.records then Err(IdempotencyRace)
    else
      var audit := Audit(r.requestId, r.auth.Key(), r.auth.Caller(),
                         SUBMIT, r.content.sourceIds, [f.observationId], [f.eventId], f.now);
      var record := Record(r.auth.tenantId, r.auth.Caller().actorId, HashOf(r.content), f.observationId, f.eventId,
                           f.auditId);
      Ok(db.(ledger := ledger, live := Upsert(db.live, LiveRow(r, f, db.ledger.next)),
             audits := db.audits[f.auditId := audit], records := db.records[ScopeOf(r) := record]))
  }

  // ---- interleaved runs ---------------------------------------------------------------------

  datatype Phase =
    | Start | Writing | Raced
    | Replied(reply: Reply) | Conflicted | Unreadable | Failed(error: AppendError)

  datatype Client = Client(request: Request, phase: Phase)

  datatype World = World(db: Db, clients: seq<Client>)

  datatype Step =
    | Arrive(request: Request)
    | Find(client: nat)
    | Write(client: nat, ids: NewIds)
    | Refind(client: nat)
    | OtherUseCase(drafts: seq<Draft>, scope: Scope, record: Record, auditId: string, audit: Audit)
    | SetStatus(key: StreamKey, status: StreamStatus, broken: Option<string>)
    | Rebuild(limit: nat, eventId: string, auditId: string, now: Time)
    | Resume(limit: nat)
    | Verify(limit: nat)
    | SkipPositions(next: nat)

  function AppendMany(l: Ledger, drafts: seq<Draft>): Result<Ledger, AppendError> {
    if |drafts| == 0 then Ok(l)
    else
      var rest :- AppendMany(l, drafts[..|drafts| - 1]);
      AppendOne(rest, drafts[|drafts| - 1])
  }

  /** An observation id no recorded event carries. */
  ghost predicate FreshObservation(log: seq<EngineEvent>, id: string) {
    forall e :: e in log && e.material.payload.ObservationPayload? ==> e.material.payload.observation.id != id
  }

  predicate At(w: World, c: nat, phase: Phase) { c < |w.clients| && w.clients[c].phase == phase }

  function Moved(w: World, c: nat, db: Db, phase: Phase): World
    requires c < |w.clients|
  {
    World(db, w.clients[c := w.clients[c].(phase := phase)])
  }

  function PhaseOf(found: Found, missing: Phase): Phase {
    match found
    case Missing => missing
    case Replays(reply) => Replied(reply)
    case Mismatch => Conflicted
  }

  function AfterWrite(w: World, c: nat, f: NewIds): World
    requires c < |w.clients|
  {
    match Commit(w.db, w.clients[c].request, f)
    case Ok(db) => Moved(w, c, db, Replied(Reply(f.observationId, f.eventId, f.auditId, false)))
    case Err(IdempotencyRace) => Moved(w, c, w.db, Raced)
    case Err(e) => Moved(w, c, w.db, Failed(e))
  }

  ghost predicate Next(w: World, step: Step, v: World) {
    match step
    case Arrive(r) => r.key != "" && v == w.(clients := w.clients + [Client(r, Start)])
    case Find(c) =>
      At(w, c, Start) && v == Moved(w, c, w.db, PhaseOf(FindExisting(w.db, w.clients[c].request), Writing))
    case Write(c, f) =>
      && At(w, c, Writing) && f.auditId !in w.db.audits && FreshObservation(w.db.ledger.log, f.observationId)
      && v == AfterWrite(w, c, f)
    case Refind(c) =>
      At(w, c, Raced) && v == Moved(w, c, w.db, PhaseOf(FindExisting(w.db, w.clients[c].request), Unreadable))
    case OtherUseCase(drafts, scope, record, auditId, audit) =>
      && scope.action != SUBMIT && audit.action != SUBMIT && auditId !in w.db.audits
      && (forall d :: d in drafts ==> d.material.eventType != ObservationAccepted)
      && var r := AppendMany(w.db.ledger, drafts);
         v == if r.Err? || scope in w.db.records then w
              else w.(db := w.db.(ledger := r.value, records := w.db.records[scope := record],
                                  audits := w.db.audits[auditId := audit]))
    case SetStatus(k, status, broken) =>
      v == w.(db := w.db.(ledger := w.db.ledger.(
                heads := w.db.ledger.heads[k := HeadOf(w.db.ledger, k).(status := status, brokenEventId := broken)])))
    case Rebuild(limit, eventId, auditId, now) =>
      auditId !in w.db.audits && v == w.(db := Projections.Rebuild(w.db, limit, eventId, auditId, now).db)
    case Resume(limit) => v == w.(db := Projections.Resume(w.db, limit).db)
    case Verify(limit) => v == w.(db := Projections.Verify(w.db, limit).db)
    case SkipPositions(next) =>
      w.db.ledger.next <= next && v == w.(db := w.db.(ledger := w.db.ledger.(next := next)))
  }

  /** A run of the engine from its empty state. */
  ghost predicate Run(trace: seq<World>, steps: seq<Step>) {
    && |trace| == |steps| + 1 && trace[0] == World(EMPTY_DB, [])
    && forall i :: 0 <= i < |steps| ==> Next(trace[i], steps[i], trace[i + 1])
  }

  // ---- what the tables say ------------------------------------------------------------------

  predicate Accepted(e: EngineEvent) { e.material.eventType == ObservationAccepted }

  function EventScope(e: EngineEvent): Scope {
    Scope(e.material.applicationId, e.material.ownerId, SUBMIT, if e.idempotencyKey.Some? then e.idempotencyKey.value
          else "")
  }

  /** The record is that of the accepted event. */
  predicate Records(record: Record, e: EngineEvent) {
    && e.material.payload.ObservationPayload? && record.primaryId == e.material.payload.observation.id
    && record.eventId == e.material.eventId && record.auditId == e.material.auditId
  }

  /** The audit is that of the accepted event. */
  predicate Audits(audit: Audit, e: EngineEvent) {
    && e.material.payload.ObservationPayload? && audit.action == SUBMIT
    && audit.eventIds == [e.material.eventId] && audit.outputIds == [e.material.payload.observation.id]
  }

  /** The accepted event has its key, its idempotency record and its audit. */
  predicate Booked(db: Db, e: EngineEvent) {
    && e.idempotencyKey.Some? && e.idempotencyKey.value != "" && e.material.payload.ObservationPayload?
    && EventScope(e) in db.records && Records(db.records[EventScope(e)], e)
    && e.material.auditId in db.audits && Audits(db.audits[e.material.auditId], e)
  }

  ghost predicate RecordHasEvent(db: Db, s: Scope)
    requires s in db.records
  {
    exists e :: e in db.ledger.log && Accepted(e) && EventScope(e) == s && Records(db.records[s], e)
  }

  ghost predicate AuditHasEvent(db: Db, id: string)
    requires id in db.audits
  {
    exists e :: e in db.ledger.log && Accepted(e) && e.material.auditId == id && Audits(db.audits[id], e)
  }

  predicate SameKey(e: EngineEvent, f: EngineEvent) {
    && e.idempotencyKey.Some? && e.idempotencyKey.value != ""
    && e.idempotencyKey == f.idempotencyKey && e.material.applicationId == f.material.applicationId
  }

  /** Application and key identify at most one keyed event, whatever its owner and action. */
  ghost predicate UniqueKeys(log: seq<EngineEvent>) {
    forall e, f :: e in log && f in log && SameKey(e, f) ==> e == f
  }

  /** Accepted events, submission records and submission audits are in one-to-one correspondence. */
  ghost predicate Balanced(db: Db) {
    && UniqueKeys(db.ledger.log)
    && (forall e :: e in db.ledger.log && Accepted(e) ==> Booked(db, e))
    && (forall s :: s in db.records && s.action == SUBMIT ==> RecordHasEvent(db, s))
    && (forall id :: id in db.audits && db.audits[id].action == SUBMIT ==> AuditHasEvent(db, id))
  }

  // ---- what the clients were told -----------------------------------------------------------

  /** Another owner or another action holds the client's application and key. */
  ghost predicate ForeignHolder(log: seq<EngineEvent>, r: Request) {
    exists e :: e in log && e.material.applicationId == r.auth.applicationId && e.idempotencyKey == Some(r.key)
                && !(Accepted(e) && e.material.ownerId == r.auth.ownerId)
  }

  predicate IsOriginal(c: Client) { c.phase.Replied? && !c.phase.reply.replayed }

  /** A client's phase is justified by the tables. */
  ghost predicate Justified(db: Db, c: Client) {
    var s := ScopeOf(c.request);
    && c.request.key != ""
    && match c.phase
       case Replied(reply) =>
         && s in db.records && db.records[s].payloadHash == HashOf(c.request.content)
         && reply.observationId == db.records[s].primaryId && reply.eventId == db.records[s].eventId
         && reply.auditId == db.records[s].auditId
       case Conflicted => s in db.records && db.records[s].payloadHash != HashOf(c.request.content)
       case Raced => KeyTaken(db.ledger.log, c.request.auth.applicationId, Some(c.request.key))
       case Unreadable => ForeignHolder(db.ledger.log, c.request)
       case _ => true
  }

  ghost predicate HasOriginal(w: World, s: Scope) {
    exists i :: 0 <= i < |w.clients| && IsOriginal(w.clients[i]) && ScopeOf(w.clients[i].request) == s
  }

  /** Every reply is justified, and every committed submission was reported as new to exactly one client. */
  ghost predicate Answered(w: World) {
    && (forall i :: 0 <= i < |w.clients| ==> Justified(w.db, w.clients[i]))
    && (forall i, j :: 0 <= i < j < |w.clients| && IsOriginal(w.clients[i]) && IsOriginal(w.clients[j]) ==>
          ScopeOf(w.clients[i].request) != ScopeOf(w.clients[j].request))
    && (forall s :: s in w.db.records && s.action == SUBMIT ==> HasOriginal(w, s))
  }

  // ---- appends keep the books balanced ------------------------------------------------------

  lemma AppendKeepsUniqueKeys(l: Ledger, d: Draft)
    requires UniqueKeys(l.log) && AppendOne(l, d).Ok?
    ensures UniqueKeys(AppendOne(l, d).value.log)
  {
    hide LatestVersion;
    var e := Persist(l, d);
    assert forall f :: f in l.log ==> exists i :: 0 <= i < |l.log| && l.log[i] == f;
    assert forall f :: f in l.log + [e] ==> f in l.log || f == e;
  }

  /** Later events leave a scope's bookings where they are. */
  lemma BookingsStay(db: Db, after: Db)
    requires Balanced(db)
    requires db.ledger.log <= after.ledger.log && UniqueKeys(after.ledger.log)
    requires forall s :: s in db.records ==> s in after.records && after.records[s] == db.records[s]
    requires forall id :: id in db.audits ==> id in after.audits && after.audits[id] == db.audits[id]
    requires forall e :: e in after.ledger.log && e !in db.ledger.log && Accepted(e) ==> Booked(after, e)
    requires forall s :: s in after.records && s !in db.records && s.action == SUBMIT ==> RecordHasEvent(after, s)
    requires forall id ::
               id in after.audits && id !in db.audits && after.audits[id].action == SUBMIT ==> AuditHasEvent(after, id)
    ensures Balanced(after)
  {
    assert forall e :: e in db.ledger.log ==> e in after.ledger.log;
    forall e | e in after.ledger.log && Accepted(e) ensures Booked(after, e) {
      if e in db.ledger.log { assert Booked(db, e); }
    }
    forall s | s in after.records && s.action == SUBMIT ensures RecordHasEvent(after, s) {
      if s in db.records { assert RecordHasEvent(db, s); }
    }
    forall id | id in after.audits && after.audits[id].action == SUBMIT ensures AuditHasEvent(after, id) {
      if id in db.audits { assert AuditHasEvent(db, id); }
    }
  }

  lemma CommitKeepsBalance(db: Db, r: Request, f: NewIds)
    requires Balanced(db) && r.key != "" && f.auditId !in db.audits && Commit(db, r, f).Ok?
    ensures Balanced(Commit(db, r, f).value)
  {
    hide LatestVersion, HasEventId;
    var after := Commit(db, r, f).value;
    var e := Persist(db.ledger, DraftOf(r, f));
    AppendKeepsUniqueKeys(db.ledger, DraftOf(r, f));
    assert after.ledger.log == db.ledger.log + [e];
    assert e in after.ledger.log && Accepted(e) && EventScope(e) == ScopeOf(r);
    assert Records(after.records[ScopeOf(r)], e) && Audits(after.audits[f.auditId], e);
    BookingsStay(db, after);
  }

  lemma AppendManyIsOthers(l: Ledger, drafts: seq<Draft>)
    requires UniqueKeys(l.log) && AppendMany(l, drafts).Ok?
    requires forall d :: d in drafts ==> d.material.eventType != ObservationAccepted
    ensures var m := AppendMany(l, drafts).value;
            && UniqueKeys(m.log) && l.log <= m.log
            && forall e :: e in m.log && e !in l.log ==> !Accepted(e)
  {
    if |drafts| > 0 {
      AppendManyIsOthers(l, drafts[..|drafts| - 1]);
      AppendKeepsUniqueKeys(AppendMany(l, drafts[..|drafts| - 1]).value, drafts[|drafts| - 1]);
    }
  }
}
