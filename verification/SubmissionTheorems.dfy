/** What holds over every run of concurrent submissions. */
module SubmissionTheorems {
  import opened Common
  import opened Ledger
  import opened Database
  import opened Submission
  import Projections

  // ---- one step -----------------------------------------------------------------------------

  /** Nothing booked is taken back. */
  ghost predicate Extends(db: Db, after: Db) {
    && db.ledger.log <= after.ledger.log
    && (forall s :: s in db.records ==> s in after.records && after.records[s] == db.records[s])
    && (forall id :: id in db.audits ==> id in after.audits && after.audits[id] == db.audits[id])
  }

  lemma OtherKeepsBalance(db: Db, drafts: seq<Draft>, scope: Scope, record: Record, auditId: string, audit: Audit)
    requires Balanced(db) && AppendMany(db.ledger, drafts).Ok? && scope !in db.records && scope.action != SUBMIT
    requires auditId !in db.audits && audit.action != SUBMIT
    requires forall d :: d in drafts ==> d.material.eventType != ObservationAccepted
    ensures var after := db.(ledger := AppendMany(db.ledger, drafts).value, records := db.records[scope := record],
                             audits := db.audits[auditId := audit]);
            Balanced(after) && Extends(db, after)
  {
    AppendManyIsOthers(db.ledger, drafts);
    BookingsStay(db, db.(ledger := AppendMany(db.ledger, drafts).value, records := db.records[scope := record],
                         audits := db.audits[auditId := audit]));
  }

  lemma RebuildKeepsBalance(db: Db, limit: nat, eventId: string, auditId: string, now: Time)
    requires Balanced(db) && auditId !in db.audits
    ensures var after := Projections.Rebuild(db, limit, eventId, auditId, now).db;
            Balanced(after) && Extends(db, after)
  {
    hide Projections.ApplyAll, Projections.After, Projections.First, LatestVersion, HasEventId;
    var after := Projections.Rebuild(db, limit, eventId, auditId, now).db;
    if after.ledger == db.ledger {
      SameBooks(db, after);
    } else {
      var d := SystemDraft(db.ledger, ProjectionRebuilt, "Projection", Projections.PROJECTION_NAME, "", eventId,
                           auditId, now);
      AppendKeepsUniqueKeys(db.ledger, d);
      BookingsStay(db, after);
    }
  }

  lemma SameBooks(db: Db, after: Db)
    requires Balanced(db) && after.ledger.log == db.ledger.log && after.records == db.records
             && after.audits == db.audits
    ensures Balanced(after)
  {
    BookingsStay(db, after);
  }

  lemma StepKeepsBalance(w: World, step: Step, v: World)
    requires Next(w, step, v) && Balanced(w.db) && Answered(w)
    ensures Balanced(v.db) && Extends(w.db, v.db)
  {
    hide Balanced, Commit, AppendMany, Projections.Rebuild, Projections.ApplyAll, Projections.After, FreshObservation,
        FindExisting;
    match step
    case Arrive(_) =>
    case Find(_) =>
    case Refind(_) =>
    case Write(c, f) =>
      var r := w.clients[c].request;
      assert Justified(w.db, w.clients[c]);
      if Commit(w.db, r, f).Ok? { CommitKeepsBalance(w.db, r, f); CommitExtends(w.db, r, f); }
    case OtherUseCase(drafts, scope, record, auditId, audit) =>
      if v != w { OtherKeepsBalance(w.db, drafts, scope, record, auditId, audit); }
    case SetStatus(_, _, _) => SameBooks(w.db, v.db);
    case Rebuild(limit, eventId, auditId, now) => RebuildKeepsBalance(w.db, limit, eventId, auditId, now);
    case Resume(_) => SameBooks(w.db, v.db);
    case Verify(_) => SameBooks(w.db, v.db);
    case SkipPositions(_) => SameBooks(w.db, v.db);
  }

  lemma CommitExtends(db: Db, r: Request, f: NewIds)
    requires Commit(db, r, f).Ok? && f.auditId !in db.audits
    ensures Extends(db, Commit(db, r, f).value)
  {
    hide AppendOne;
  }

  lemma JustifiedStays(db: Db, after: Db, c: Client)
    requires Extends(db, after) && Justified(db, c)
    ensures Justified(after, c)
  {
    match c.phase
    case Raced =>
      var i :| 0 <= i < |db.ledger.log| && db.ledger.log[i].idempotencyKey == Some(c.request.key)
               && db.ledger.log[i].material.applicationId == c.request.auth.applicationId;
      assert after.ledger.log[i] == db.ledger.log[i];
    case Unreadable =>
      assert forall e :: e in db.ledger.log ==> e in after.ledger.log;
    case _ =>
  }

  /** A raced client finds no record exactly when another owner or action holds its key. */
  lemma RefindMisses(db: Db, r: Request)
    requires Balanced(db) && r.key != "" && KeyTaken(db.ledger.log, r.auth.applicationId, Some(r.key))
    ensures FindExisting(db, r).Missing? <==> ForeignHolder(db.ledger.log, r)
  {
    var i :| 0 <= i < |db.ledger.log| && db.ledger.log[i].idempotencyKey == Some(r.key)
             && db.ledger.log[i].material.applicationId == r.auth.applicationId;
    var e := db.ledger.log[i];
    assert e in db.ledger.log;
    assert forall f :: f in db.ledger.log && SameKey(f, e) ==> f == e;
    if Accepted(e) && e.material.ownerId == r.auth.ownerId {
      assert Booked(db, e) && EventScope(e) == ScopeOf(r);
    } else if ScopeOf(r) in db.records {
      assert RecordHasEvent(db, ScopeOf(r));
      var f :| f in db.ledger.log && Accepted(f) && EventScope(f) == ScopeOf(r) && Records(db.records[ScopeOf(r)], f);
      assert Booked(db, f);
      assert SameKey(f, e);
    }
  }

  /** What one client's step leaves: its new phase justified, everyone else as they were. */
  lemma MoveKeepsAnswers(w: World, c: nat, db: Db, phase: Phase)
    requires Answered(w) && Extends(w.db, db) && c < |w.clients| && !IsOriginal(w.clients[c])
    requires Justified(db, Client(w.clients[c].request, phase))
    requires IsOriginal(Client(w.clients[c].request, phase)) ==> ScopeOf(w.clients[c].request) !in w.db.records
    requires forall s :: s in db.records && s !in w.db.records && s.action == SUBMIT ==>
               s == ScopeOf(w.clients[c].request) && IsOriginal(Client(w.clients[c].request, phase))
    ensures Answered(Moved(w, c, db, phase))
  {
    var v := Moved(w, c, db, phase);
    forall i | 0 <= i < |v.clients| ensures Justified(v.db, v.clients[i]) {
      if i != c { JustifiedStays(w.db, db, w.clients[i]); }
    }
    forall i, j | 0 <= i < j < |v.clients| && IsOriginal(v.clients[i]) && IsOriginal(v.clients[j])
      ensures ScopeOf(v.clients[i].request) != ScopeOf(v.clients[j].request)
    {
      assert Justified(w.db, w.clients[i]) && Justified(w.db, w.clients[j]);
    }
    forall s | s in v.db.records && s.action == SUBMIT ensures HasOriginal(v, s) {
      if s in w.db.records {
        assert HasOriginal(w, s);
        var i :| 0 <= i < |w.clients| && IsOriginal(w.clients[i]) && ScopeOf(w.clients[i].request) == s;
        assert v.clients[i] == w.clients[i];
      } else {
        assert v.clients[c] == Client(w.clients[c].request, phase);
      }
    }
  }

  /** A step that moves no client and books no submission keeps every answer. */
  lemma BackgroundKeepsAnswers(w: World, v: World)
    requires Answered(w) && Extends(w.db, v.db)
    requires w.clients == v.clients
    requires forall s :: s in v.db.records && s.action == SUBMIT ==> s in w.db.records
    ensures Answered(v)
  {
    forall i | 0 <= i < |v.clients| ensures Justified(v.db, v.clients[i]) { JustifiedStays(w.db, v.db, w.clients[i]); }
    forall s | s in v.db.records && s.action == SUBMIT ensures HasOriginal(v, s) { assert HasOriginal(w, s); }
  }

  lemma ArrivalKeepsAnswers(w: World, r: Request)
    requires Answered(w) && r.key != ""
    ensures Answered(w.(clients := w.clients + [Client(r, Start)]))
  {
    var v := w.(clients := w.clients + [Client(r, Start)]);
    assert forall i :: 0 <= i < |w.clients| ==> v.clients[i] == w.clients[i];
    forall s | s in v.db.records && s.action == SUBMIT ensures HasOriginal(v, s) {
      assert HasOriginal(w, s);
      var i :| 0 <= i < |w.clients| && IsOriginal(w.clients[i]) && ScopeOf(w.clients[i].request) == s;
      assert v.clients[i] == w.clients[i];
    }
  }

  lemma WriteKeepsAnswers(w: World, c: nat, f: NewIds)
    requires At(w, c, Writing) && Answered(w) && Balanced(w.db) && f.auditId !in w.db.audits
    ensures Answered(AfterWrite(w, c, f))
  {
    hide LatestVersion, HasEventId, AppendOne;
    var r := w.clients[c].request;
    assert Justified(w.db, w.clients[c]);
    match Commit(w.db, r, f)
    case Ok(db) =>
      MoveKeepsAnswers(w, c, db, Replied(Reply(f.observationId, f.eventId, f.auditId, false)));
    case Err(IdempotencyRace) =>
      RaceMeansTaken(w.db, r, f);
      MoveKeepsAnswers(w, c, w.db, Raced);
    case Err(e) =>
      MoveKeepsAnswers(w, c, w.db, Failed(e));
  }

  /** Either unique key can raise the race; both mean that application and key are taken. */
  lemma RaceMeansTaken(db: Db, r: Request, f: NewIds)
    requires Balanced(db) && r.key != "" && Commit(db, r, f) == Err(IdempotencyRace)
    ensures KeyTaken(db.ledger.log, r.auth.applicationId, Some(r.key))
  {
    if AppendOne(db.ledger, DraftOf(r, f)).Ok? {
      assert RecordHasEvent(db, ScopeOf(r));
      var e :| e in db.ledger.log && Accepted(e) && EventScope(e) == ScopeOf(r) && Records(db.records[ScopeOf(r)], e);
      assert Booked(db, e);
      var i :| 0 <= i < |db.ledger.log| && db.ledger.log[i] == e;
    }
  }

  lemma StepKeepsAnswers(w: World, step: Step, v: World)
    requires Next(w, step, v) && Balanced(w.db) && Answered(w)
    ensures Answered(v)
  {
    hide Commit, Answered, Balanced, AppendMany, Projections.Rebuild, Projections.Resume, Projections.Verify;
    StepKeepsBalance(w, step, v);
    match step
    case Arrive(r) => ArrivalKeepsAnswers(w, r);
    case Find(c) => FindKeepsAnswers(w, c);
    case Refind(c) => RefindKeepsAnswers(w, c);
    case Write(c, f) => WriteKeepsAnswers(w, c, f);
    case _ => BackgroundBooksNothing(w, step, v); BackgroundKeepsAnswers(w, v);
  }

  lemma BackgroundBooksNothing(w: World, step: Step, v: World)
    requires Next(w, step, v) && !step.Arrive? && !step.Find? && !step.Refind? && !step.Write?
    ensures w.clients == v.clients
    ensures forall s :: s in v.db.records && s.action == SUBMIT ==> s in w.db.records
  {
    hide AppendMany, AppendOne, Projections.ApplyAll, Projections.After;
  }

  lemma FindKeepsAnswers(w: World, c: nat)
    requires At(w, c, Start) && Answered(w)
    ensures Answered(Moved(w, c, w.db, PhaseOf(FindExisting(w.db, w.clients[c].request), Writing)))
  {
    assert Justified(w.db, w.clients[c]);
    MoveKeepsAnswers(w, c, w.db, PhaseOf(FindExisting(w.db, w.clients[c].request), Writing));
  }

  lemma RefindKeepsAnswers(w: World, c: nat)
    requires At(w, c, Raced) && Answered(w) && Balanced(w.db)
    ensures Answered(Moved(w, c, w.db, PhaseOf(FindExisting(w.db, w.clients[c].request), Unreadable)))
  {
    assert Justified(w.db, w.clients[c]);
    RefindMisses(w.db, w.clients[c].request);
    MoveKeepsAnswers(w, c, w.db, PhaseOf(FindExisting(w.db, w.clients[c].request), Unreadable));
  }

  // ---- every run ----------------------------------------------------------------------------

  lemma {:induction false} BooksThroughout(trace: seq<World>, steps: seq<Step>, i: nat)
    requires Run(trace, steps) && i < |trace|
    ensures Balanced(trace[i].db) && Answered(trace[i])
  {
    if i > 0 {
      BooksThroughout(trace, steps, i - 1);
      StepKeepsBalance(trace[i - 1], steps[i - 1], trace[i]);
      StepKeepsAnswers(trace[i - 1], steps[i - 1], trace[i]);
    }
  }

  predicate SameScope(e: EngineEvent, f: EngineEvent) { Accepted(e) && Accepted(f) && EventScope(e) == EventScope(f) }

  /**
   * However many requests interleave, each application, owner and key commits at most one event, with
   * exactly one idempotency record and one audit, and no record or audit of a submission stands alone.
   */
  lemma ExactlyOnce(trace: seq<World>, steps: seq<Step>, i: nat)
    requires Run(trace, steps) && i < |trace|
    ensures var db := trace[i].db;
            && (forall e, f :: e in db.ledger.log && f in db.ledger.log && SameScope(e, f) ==> e == f)
            && (forall e :: e in db.ledger.log && Accepted(e) ==> Booked(db, e))
            && (forall s :: s in db.records && s.action == SUBMIT ==> RecordHasEvent(db, s))
            && (forall id :: id in db.audits && db.audits[id].action == SUBMIT ==> AuditHasEvent(db, id))
  {
    BooksThroughout(trace, steps, i);
    var db := trace[i].db;
    forall e, f | e in db.ledger.log && f in db.ledger.log && SameScope(e, f) ensures e == f {
      assert Booked(db, e) && Booked(db, f);
      assert SameKey(e, f);
    }
  }

  /**
   * Clients of one scope that got a reply hold the same three ids, exactly one of them was told it
   * was new, and a conflict reaches exactly those whose payload differs from the winner's.
   */
  lemma RepliesAgree(trace: seq<World>, steps: seq<Step>, i: nat, a: nat)
    requires Run(trace, steps) && i < |trace| && a < |trace[i].clients|
    requires trace[i].clients[a].phase.Replied? || trace[i].clients[a].phase.Conflicted?
    ensures var w := trace[i];
            var s := ScopeOf(w.clients[a].request);
            exists b :: && 0 <= b < |w.clients| && IsOriginal(w.clients[b]) && ScopeOf(w.clients[b].request) == s
                        && (w.clients[a].phase.Conflicted?
                            <==> w.clients[a].request.content != w.clients[b].request.content)
                        && (w.clients[a].phase.Replied? ==>
                              w.clients[a].phase.reply == w.clients[b].phase.reply.(replayed := a != b))
                        && forall c ::
                             0 <= c < |w.clients| && IsOriginal(w.clients[c]) && ScopeOf(w.clients[c].request) == s ==>
                               c == b
  {
    BooksThroughout(trace, steps, i);
    var w := trace[i];
    var s := ScopeOf(w.clients[a].request);
    assert Justified(w.db, w.clients[a]);
    assert HasOriginal(w, s);
    var b :| 0 <= b < |w.clients| && IsOriginal(w.clients[b]) && ScopeOf(w.clients[b].request) == s;
    assert Justified(w.db, w.clients[b]);
  }

  /** The event carries the request's application and key. */
  predicate Holds(e: EngineEvent, r: Request) {
    e.material.applicationId == r.auth.applicationId && e.idempotencyKey == Some(r.key)
  }

  /** The "winning record not readable" branch is taken exactly on a key held by another owner or action. */
  lemma UnreadableExactly(trace: seq<World>, steps: seq<Step>, i: nat, c: nat)
    requires Run(trace, steps) && i < |steps| && steps[i] == Refind(c)
    ensures c < |trace[i + 1].clients|
    ensures trace[i + 1].clients[c].phase.Unreadable?
            <==> ForeignHolder(trace[i].db.ledger.log, trace[i].clients[c].request)
  {
    BooksThroughout(trace, steps, i);
    assert Next(trace[i], steps[i], trace[i + 1]);
    assert Justified(trace[i].db, trace[i].clients[c]);
    RefindMisses(trace[i].db, trace[i].clients[c].request);
  }

  /**
   * Where every event under a client's application and key is its own owner's submission, the branch is never
   * reached.
   */
  lemma ReadableWithinOneScope(trace: seq<World>, steps: seq<Step>, i: nat, c: nat)
    requires Run(trace, steps) && i < |trace| && c < |trace[i].clients|
    requires forall e :: e in trace[i].db.ledger.log && Holds(e, trace[i].clients[c].request) ==>
               Accepted(e) && e.material.ownerId == trace[i].clients[c].request.auth.ownerId
    ensures !trace[i].clients[c].phase.Unreadable?
  {
    BooksThroughout(trace, steps, i);
    assert Justified(trace[i].db, trace[i].clients[c]);
  }

  /** A proposal under the request's own key, by the same application and owner. */
  function RivalProposal(r: Request): Draft {
    Draft(Material("evt_rival", HypothesisProposed, "1.0", "Hypothesis", "hyp_rival", 1, "life", r.auth.tenantId,
                   r.auth.ownerId, r.auth.applicationId, 0, 0, "aud_rival", "req_rival",
                   ProposalPayload("hyp_rival", None, false), r.auth.Caller()), Some(r.key))
  }

  /**
   * The branch is reachable: a hypothesis proposed under the same key by the same application and
   * owner leaves the submission raced with no record to read, although its own scope was never used.
   */
  lemma UnreadableIsReachable(r: Request) returns (trace: seq<World>, steps: seq<Step>)
    requires r.key != ""
    ensures Run(trace, steps) && |trace| == 6 && trace[5].clients == [Client(r, Unreadable)]
    ensures forall e :: e in trace[5].db.ledger.log ==> !Accepted(e)
  {
    var d := RivalProposal(r);
    var s := Scope(r.auth.applicationId, r.auth.ownerId, "hypotheses.propose", r.key);
    var record := Record(r.auth.tenantId, r.auth.applicationId, HashOfOther(""), "hyp_rival", "evt_rival", "aud_rival");
    var audit := Audit("req_rival", r.auth.Key(), r.auth.Caller(), "hypotheses.propose", [], ["hyp_rival"],
                       ["evt_rival"], 0);
    var ids := NewIds(1, "aud_new", "evt_new", "obs_new");
    steps := [Arrive(r), OtherUseCase([d], s, record, "aud_rival", audit), Find(0), Write(0, ids), Refind(0)];
    var w1 := World(EMPTY_DB, [Client(r, Start)]);
    var ledger := RivalCommits(r);
    var db := EMPTY_DB.(ledger := ledger, records := map[s := record], audits := map["aud_rival" := audit]);
    var w2 := World(db, [Client(r, Start)]);
    hide AppendOne, AppendMany, DraftOf, RivalProposal, Commit;
    var w3, w4, w5 := World(db, [Client(r, Writing)]), World(db, [Client(r, Raced)]), World(db,
        [Client(r, Unreadable)]);
    trace := [World(EMPTY_DB, []), w1, w2, w3, w4, w5];
    RivalWins(r, ledger, ids);
    LoserRaces(db, r, ids);
    NothingAccepted(r, ledger, ids);
    assert Next(trace[0], steps[0], trace[1]);
    assert Next(trace[1], steps[1], trace[2]);
    assert Next(trace[2], steps[2], trace[3]);
    assert Next(trace[3], steps[3], trace[4]);
    assert Next(trace[4], steps[4], trace[5]);
  }

  lemma LoserRaces(db: Db, r: Request, ids: NewIds)
    requires AppendOne(db.ledger, DraftOf(r, ids)) == Err(IdempotencyRace)
    ensures Commit(db, r, ids) == Err(IdempotencyRace)
  {}

  lemma NothingAccepted(r: Request, ledger: Ledger, ids: NewIds)
    requires ledger.log == [Persist(EMPTY, RivalProposal(r))]
    ensures FreshObservation(ledger.log, ids.observationId) && forall e :: e in ledger.log ==> !Accepted(e)
  {}

  lemma RivalCommits(r: Request) returns (ledger: Ledger)
    ensures AppendMany(EMPTY, [RivalProposal(r)]) == Ok(ledger) && ledger.log == [Persist(EMPTY, RivalProposal(r))]
    ensures HeadOf(ledger, r.auth.Key()).status == ACTIVE
  {
    var d := RivalProposal(r);
    assert [d][..0] == [];
    assert LatestVersion([], d.material.AggregateRef()) == 0;
    ledger := AppendOne(EMPTY, d).value;
  }

  lemma RivalWins(r: Request, ledger: Ledger, ids: NewIds)
    requires r.key != "" && ledger.log == [Persist(EMPTY, RivalProposal(r))]
             && HeadOf(ledger, r.auth.Key()).status == ACTIVE
    requires ids.eventId != "evt_rival"
    ensures AppendOne(ledger, DraftOf(r, ids)) == Err(IdempotencyRace)
  {
    var e := ledger.log[0];
    assert ledger.log[..0] == [];
    assert LatestVersion(ledger.log, DraftOf(r, ids).material.AggregateRef()) == 0;
    assert KeyTaken(ledger.log, r.auth.applicationId, Some(r.key));
  }
}
