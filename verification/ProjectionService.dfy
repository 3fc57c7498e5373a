/** The rebuild service: the loops over a batch of events, in one transaction each. */
module ProjectionService {
  import opened Common
  import opened Ledger
  import opened Database
  import opened Projections

  class ProjectionRebuildService {
    var ledger: Ledger
    var live: Table
    var shadow: Table
    var checkpoint: Option<Checkpoint>
    var audits: map<string, Audit>

    constructor ()
      ensures Tables() == EMPTY_DB
    {
      ledger, live, shadow, checkpoint, audits := EMPTY, map[], map[], None, map[];
    }

    function Tables(): Db
      reads this
    {
      Db(ledger, live, shadow, checkpoint, audits, map[])
    }

    /** Apply a batch on top of a table, until an event stops it. */
    static method ApplyBatch(events: seq<EngineEvent>, start: Progress) returns (p: Progress)
      requires start.stopped.None?
      ensures p == ApplyAll(start, events)
    {
      p := start;
      for i := 0 to |events|
        invariant p == ApplyAll(start, events[..i]) && p.stopped.None?
      {
        assert events[..i + 1][..i] == events[..i];
        var e := events[i];
        match e.material.eventType {
          case ObservationAccepted =>
            if !e.material.payload.ObservationPayload? {
              p := p.(stopped := Some(Malformed));
            } else {
              var row := ReplayRow(e);
              p := Progress(p.table[row.observationId := row], e.position, Some(e.material.eventId), p.written + 1,
                            None);
            }
          case Unregistered(name) =>
            if name == "ExperimentProgressUpdated" {
              p := p.(position := e.position, eventId := Some(e.material.eventId));
            } else {
              p := p.(stopped := Some(Unknown));
            }
          case _ =>
            p := p.(position := e.position, eventId := Some(e.material.eventId));
        }
        if p.stopped.Some? {
          StopIsFinal(start, events, i + 1);
          return;
        }
      }
      assert events[..|events|] == events;
    }

    /** Replay everything into the shadow table, then promote it; live is untouched until then. */
    method RebuildFromScratch(limit: nat, eventId: string, auditId: string, now: Time)
        returns (r: Result<Rebuilt, Failure>)
      modifies this
      ensures Outcome(Tables(), r) == Rebuild(old(Tables()), limit, eventId, auditId, now)
    {
      hide ApplyAll, After, First, AppendOne, Checksum;
      var events := First(After(ledger.log, 0), limit);
      var p := ApplyBatch(events, Progress(map[], 0, None, 0, None));
      if p.stopped == Some(Malformed) { return Err(MalformedEvent); }
      if p.stopped.Some? {
        shadow := map[];
        checkpoint := Some(Checkpoint(p.position, p.eventId, STOPPED, None));
        return Err(UnknownEvent);
      }
      var appended :=
          AppendOne(ledger,
                    SystemDraft(ledger, ProjectionRebuilt, "Projection", PROJECTION_NAME, "", eventId, auditId, now));
      if appended.Err? { return Err(Rejected(appended.error)); }
      live, shadow := p.table, map[];
      checkpoint := Some(Checkpoint(p.position, p.eventId, READY, Some(Checksum(live))));
      ledger := appended.value;
      audits := audits[auditId := Audit(auditId, SYSTEM_KEY, SYSTEM_ACTOR, "projections.rebuild", [], [PROJECTION_NAME],
                                        [eventId], now)];
      r := Ok(Rebuilt(|events|, p.written, p.position, Checksum(live)));
    }

    /** Catch live up from the checkpoint. */
    method CatchUp(limit: nat) returns (r: Result<Rebuilt, Failure>)
      modifies this
      ensures Outcome(Tables(), r) == Resume(old(Tables()), limit)
    {
      hide ApplyAll, After, First, Checksum;
      var from: nat, last: Option<string> := 0, None;
      if checkpoint.Some? { from, last := checkpoint.value.position, checkpoint.value.eventId; }
      var events := First(After(ledger.log, from), limit);
      var p := ApplyBatch(events, Progress(live, from, last, 0, None));
      if p.stopped == Some(Malformed) { return Err(MalformedEvent); }
      live := p.table;
      if p.stopped.Some? {
        checkpoint := Some(Checkpoint(p.position, p.eventId, STOPPED, None));
        return Err(UnknownEvent);
      }
      checkpoint := Some(Checkpoint(p.position, p.eventId, READY, Some(Checksum(live))));
      r := Ok(Rebuilt(|events|, p.written, p.position, Checksum(live)));
    }

    /** Compare live with a replay; only the shadow table is written. */
    method VerifyLive(limit: nat) returns (r: Result<Report, Failure>)
      modifies this`shadow
      ensures Outcome(Tables(), r) == Verify(old(Tables()), limit)
    {
      hide ApplyAll, After, First, Checksum;
      var events := First(After(ledger.log, 0), limit);
      var p := ApplyBatch(events, Progress(map[], 0, None, 0, None));
      if p.stopped == Some(Malformed) { return Err(MalformedEvent); }
      shadow := map[];
      r := Ok(Report(p.stopped.None?
                     && Checksum(p.table) == Checksum(live), p.stopped.Some?, |live|, |p.table|, |events|));
    }
  }
}
