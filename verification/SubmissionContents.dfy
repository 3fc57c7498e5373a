/**
 * What an accepted submission stores, column by column, and that every client told of it finds its own
 * content there.
 */
module SubmissionContents {
  import opened Common
  import opened Ledger
  import opened Database
  import opened Submission
  import opened SubmissionTheorems
  import opened SubmissionService
  import Projections

  /**
   * The event carries the content field by field, the caller's tenant added to the context, and happened at
   * the client's time, or else at the time it was recorded.
   */
  predicate Carries(e: EngineEvent, c: Content) {
    e.material.eventType == ObservationAccepted && e.material.payload.ObservationPayload? &&
    var m, o := e.material, e.material.payload.observation;
    && o.schemaVersion == c.schemaVersion && o.domainPack == c.domainPack && m.domainPack == c.domainPack
    && o.subject == c.subject && o.statement == c.statement && o.knowledgeClass == c.knowledgeClass
    && o.unknownReason == c.unknownReason && o.observedBy == c.observedBy
    && o.context == c.context["tenant_id" := JString(m.tenantId)]
    && o.sourceIds == c.sourceIds && o.metadata == c.metadata && o.occurredAt == c.occurredAt
    && m.occurredAt == (if c.occurredAt.Some? then c.occurredAt.value else m.recordedAt)
    && o.createdAt == m.recordedAt && o.auditId == m.auditId
    && m.schemaVersion == "1.0" && m.aggregateType == "Observation" && m.aggregateId == o.id && m.aggregateVersion == 1
  }

  /** The row shows the content field by field, at the client's time only. */
  predicate Shows(row: Row, c: Content, tenantId: string) {
    && row.schemaVersion == c.schemaVersion && row.domainPack == c.domainPack && row.subject == c.subject
    && row.statement == c.statement && row.knowledgeClass == c.knowledgeClass && row.unknownReason == c.unknownReason
    && row.observedBy == c.observedBy && row.context == c.context["tenant_id" := JString(tenantId)]
    && row.sourceIds == c.sourceIds && row.metadata == c.metadata && row.occurredAt == c.occurredAt
  }

  /**
   * An accepted new submission appends one event that carries its content for its caller and key, and adds
   * one row that shows it, one audit and one idempotency record; nothing else changes.
   */
  lemma AcceptedStores(db: Db, r: Request, f: NewIds)
    requires Execute(db, r, f).1.Ok? && !Execute(db, r, f).1.value.replayed
    ensures var after, reply := Execute(db, r, f).0, Execute(db, r, f).1.value;
            && reply == Reply(f.observationId, f.eventId, f.auditId, false)
            && |after.ledger.log| == |db.ledger.log| + 1 && db.ledger.log < after.ledger.log
            && var e := after.ledger.log[|db.ledger.log|];
               && Carries(e, r.content) && e.idempotencyKey == Some(r.key) && e.position == db.ledger.next
               && e.material.payload.observation.id == f.observationId && e.material.eventId == f.eventId
               && e.material.tenantId == r.auth.tenantId && e.material.ownerId == r.auth.ownerId
               && e.material.applicationId == r.auth.applicationId && e.material.recordedAt == f.now
               && e.material.auditId == f.auditId && e.material.requestId == r.requestId
               && e.material.actor == Actor(APPLICATION, r.auth.applicationId)
    ensures var after := Execute(db, r, f).0;
            && f.observationId in after.live && after.live == db.live[f.observationId := after.live[f.observationId]]
            && var row := after.live[f.observationId];
               && Shows(row, r.content, r.auth.tenantId) && row.observationId == f.observationId
               && row.position == db.ledger.next && row.eventId == f.eventId && row.tenantId == r.auth.tenantId
               && row.ownerId == r.auth.ownerId && row.applicationId == r.auth.applicationId
               && row.createdAt == f.now && row.auditId == f.auditId
    ensures var after, s := Execute(db, r, f).0, Scope(r.auth.applicationId, r.auth.ownerId, "observations.submit",
                                                       r.key);
            && after.records == db.records[s := Record(r.auth.tenantId, r.auth.applicationId, HashOf(r.content),
                                                       f.observationId, f.eventId, f.auditId)]
            && after.audits == db.audits[f.auditId :=
                 Audit(r.requestId, StreamKey(r.auth.tenantId, r.auth.ownerId, r.auth.applicationId),
                       Actor(APPLICATION, r.auth.applicationId), "observations.submit", r.content.sourceIds,
                       [f.observationId], [f.eventId], f.now)]
            && after.shadow == db.shadow && after.checkpoint == db.checkpoint
  {
    hide LatestVersion, HasEventId, KeyTaken;
    assert AppendOne(db.ledger, DraftOf(r, f)).Ok?;
    assert Execute(db, r, f).0.ledger.log[|db.ledger.log|] == Persist(db.ledger, DraftOf(r, f));
  }

  // ---- over runs ----------------------------------------------------------------------------

  /** The record of a submission stands for a content that its event carries. */
  ghost predicate ContentLogged(db: Db, s: Scope)
    requires s in db.records
  {
    && db.records[s].payloadHash.HashOf?
    && exists e :: && e in db.ledger.log && Accepted(e) && EventScope(e) == s && Records(db.records[s], e)
                   && Carries(e, db.records[s].payloadHash.content)
  }

  ghost predicate Truthful(db: Db) { forall s :: s in db.records && s.action == SUBMIT ==> ContentLogged(db, s) }

  lemma TruthStays(db: Db, after: Db)
    requires Truthful(db) && Extends(db, after)
    requires forall s :: s in after.records && s !in db.records && s.action == SUBMIT ==> ContentLogged(after, s)
    ensures Truthful(after)
  {
    hide Carries, Records, Accepted;
    assert forall e :: e in db.ledger.log ==> e in after.ledger.log;
    forall s | s in after.records && s.action == SUBMIT ensures ContentLogged(after, s) {
      if s in db.records { assert ContentLogged(db, s); }
    }
  }

  lemma CommitIsTruthful(db: Db, r: Request, f: NewIds)
    requires Truthful(db) && Commit(db, r, f).Ok? && f.auditId !in db.audits
    ensures Truthful(Commit(db, r, f).value)
  {
    hide LatestVersion, HasEventId, KeyTaken, Truthful, ContentLogged;
    var after := Commit(db, r, f).value;
    CommitExtends(db, r, f);
    CommittedContent(db, r, f);
    TruthStays(db, after);
  }

  lemma CommittedContent(db: Db, r: Request, f: NewIds)
    requires Commit(db, r, f).Ok?
    ensures var after := Commit(db, r, f).value;
            ScopeOf(r) in after.records && ContentLogged(after, ScopeOf(r))
            && forall s :: s in after.records && s !in db.records ==> s == ScopeOf(r)
  {
    hide LatestVersion, HasEventId, KeyTaken;
    var after, e := Commit(db, r, f).value, Persist(db.ledger, DraftOf(r, f));
    assert after.ledger.log == db.ledger.log + [e];
    assert e in after.ledger.log && Accepted(e) && EventScope(e) == ScopeOf(r);
    assert Records(after.records[ScopeOf(r)], e) && Carries(e, r.content);
  }

  lemma StepIsTruthful(w: World, step: Step, v: World)
    requires Next(w, step, v) && Balanced(w.db) && Answered(w) && Truthful(w.db)
    ensures Truthful(v.db)
  {
    hide Balanced, Answered, Commit, Truthful, AppendMany, Projections.Rebuild, Projections.Resume, Projections.Verify,
         FindExisting, FreshObservation;
    StepKeepsBalance(w, step, v);
    match step
    case Arrive(_) =>
    case Find(_) =>
    case Refind(_) =>
    case Write(c, f) =>
      if Commit(w.db, w.clients[c].request, f).Ok? { CommitIsTruthful(w.db, w.clients[c].request, f); }
    case _ =>
      BackgroundBooksNothing(w, step, v);
      TruthStays(w.db, v.db);
  }

  lemma {:induction false} TruthfulThroughout(trace: seq<World>, steps: seq<Step>, i: nat)
    requires Run(trace, steps) && i < |trace|
    ensures Truthful(trace[i].db)
  {
    if i > 0 {
      TruthfulThroughout(trace, steps, i - 1);
      BooksThroughout(trace, steps, i - 1);
      StepIsTruthful(trace[i - 1], steps[i - 1], trace[i]);
    }
  }

  /**
   * However many requests interleave, a client that got a reply finds in the log the event it names, under
   * its own scope, carrying its own content field by field, whichever client's write that event was.
   */
  lemma RepliesCarryContent(trace: seq<World>, steps: seq<Step>, i: nat, c: nat)
    requires Run(trace, steps) && i < |trace| && c < |trace[i].clients| && trace[i].clients[c].phase.Replied?
    ensures var r, reply := trace[i].clients[c].request, trace[i].clients[c].phase.reply;
            exists e :: && e in trace[i].db.ledger.log && Carries(e, r.content)
                        && e.material.eventId == reply.eventId
                           && e.material.payload.observation.id == reply.observationId
                        && e.material.auditId == reply.auditId && e.material.ownerId == r.auth.ownerId
                        && e.material.applicationId == r.auth.applicationId && e.idempotencyKey == Some(r.key)
  {
    hide Carries;
    BooksThroughout(trace, steps, i);
    TruthfulThroughout(trace, steps, i);
    var db, r := trace[i].db, trace[i].clients[c].request;
    assert Justified(db, trace[i].clients[c]);
    assert ContentLogged(db, ScopeOf(r));
    var e :| && e in db.ledger.log && Accepted(e) && EventScope(e) == ScopeOf(r) && Records(db.records[ScopeOf(r)], e)
             && Carries(e, db.records[ScopeOf(r)].payloadHash.content);
    assert Booked(db, e);
  }
}
