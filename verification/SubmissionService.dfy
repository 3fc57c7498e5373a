/** The submit-observation use case over the engine's tables, one request at a time. */
module SubmissionService {
  import opened Common
  import opened Ledger
  import opened Database
  import opened Submission

  datatype SubmitError = Conflict | WinnerNotReadable | Refused(cause: AppendError)

  function Reported(found: Found, missing: Result<Reply, SubmitError>): Result<Reply, SubmitError> {
    match found
    case Missing => missing
    case Replays(reply) => Ok(reply)
    case Mismatch => Err(Conflict)
  }

  /** Find, else write, else find again; with no other transaction in between. */
  function Execute(db: Db, r: Request, f: NewIds): (Db, Result<Reply, SubmitError>) {
    var found := FindExisting(db, r);
    if !found.Missing? then (db, Reported(found, Err(Conflict)))
    else
      match Commit(db, r, f)
      case Ok(after) => (after, Ok(Reply(f.observationId, f.eventId, f.auditId, false)))
      case Err(IdempotencyRace) => (db, Reported(FindExisting(db, r), Err(WinnerNotReadable)))
      case Err(e) => (db, Err(Refused(e)))
  }

  class SubmitObservationUseCase {
    var ledger: Ledger
    var live: Table
    var audits: map<string, Audit>
    var records: map<Scope, Record>

    constructor ()
      ensures Tables() == EMPTY_DB
    {
      ledger, live, audits, records := EMPTY, map[], map[], map[];
    }

    function Tables(): Db
      reads this
    {
      Db(ledger, live, map[], None, audits, records)
    }

    method Find(r: Request) returns (found: Found)
      ensures found == FindExisting(Tables(), r)
    {
      var s := ScopeOf(r);
      if s !in records { return Missing; }
      var existing := records[s];
      if existing.payloadHash != HashOf(r.content) { return Mismatch; }
      return Replays(Reply(existing.primaryId, existing.eventId, existing.auditId, true));
    }

    /** One transaction: the event, its row, its audit and its idempotency record, or nothing. */
    method Write(r: Request, f: NewIds) returns (res: Result<Reply, AppendError>)
      modifies this
      ensures res == match Commit(old(Tables()), r, f)
                     case Ok(_) => Ok(Reply(f.observationId, f.eventId, f.auditId, false))
                     case Err(e) => Err(e)
      ensures Tables() == match Commit(old(Tables()), r, f)
                          case Ok(db) => db
                          case Err(_) => old(Tables())
    {
      hide AppendOne;
      var appended := AppendOne(ledger, DraftOf(r, f));
      if appended.Err? { return Err(appended.error); }
      if ScopeOf(r) in records { return Err(IdempotencyRace); }
      live := Upsert(live, LiveRow(r, f, ledger.next));
      audits := audits[f.auditId := Audit(r.requestId, r.auth.Key(), r.auth.Caller(), SUBMIT, r.content.sourceIds,
                                          [f.observationId], [f.eventId], f.now)];
      records := records[ScopeOf(r) := Record(r.auth.tenantId, r.auth.Caller().actorId, HashOf(r.content),
                                              f.observationId, f.eventId, f.auditId)];
      ledger := appended.value;
      res := Ok(Reply(f.observationId, f.eventId, f.auditId, false));
    }

    method Submit(r: Request, f: NewIds) returns (res: Result<Reply, SubmitError>)
      modifies this
      ensures (Tables(), res) == Execute(old(Tables()), r, f)
    {
      hide Commit;
      var found := Find(r);
      if found.Replays? { return Ok(found.reply); }
      if found.Mismatch? { return Err(Conflict); }
      var written := Write(r, f);
      if written.Ok? { return Ok(written.value); }
      if written.error != IdempotencyRace { return Err(Refused(written.error)); }
      found := Find(r);
      match found
      case Replays(reply) => return Ok(reply);
      case Mismatch => return Err(Conflict);
      case Missing => return Err(WinnerNotReadable);
    }
  }

  /**
   * After an accepted submission every retry under its scope changes nothing: the same payload gets
   * the original ids back, any other payload a conflict.
   */
  lemma RetriesCreateNothing(db: Db, r: Request, f: NewIds, again: Request, g: NewIds)
    requires Execute(db, r, f).1.Ok? && ScopeOf(again) == ScopeOf(r)
    ensures Execute(Execute(db, r, f).0, again, g) ==
            (Execute(db, r, f).0,
             if again.content == r.content then Ok(Execute(db, r, f).1.value.(replayed := true)) else Err(Conflict))
  {
    hide AppendOne;
  }

  /** A refused submission leaves every table as it was. */
  lemma RefusalsChangeNothing(db: Db, r: Request, f: NewIds)
    requires Execute(db, r, f).1.Err?
    ensures Execute(db, r, f).0 == db
  {}
}
