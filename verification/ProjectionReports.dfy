/**
 * What replay makes of each event, and what rebuilding, resuming and verifying store and report, counted from
 * the log.
 */
module ProjectionReports {
  import opened Common
  import opened Ledger
  import opened Database
  import opened Projections
  import opened ProjectionTheorems

  // ---- rows ---------------------------------------------------------------------------------

  predicate Accepts(e: EngineEvent, id: string) {
    && e.material.eventType == ObservationAccepted && e.material.payload.ObservationPayload?
    && e.material.payload.observation.id == id
  }

  /** The row shows the event: what its observation says, and who recorded it when, where and for which tenant. */
  predicate ShowsEvent(row: Row, e: EngineEvent) {
    e.material.payload.ObservationPayload? &&
    var m, o := e.material, e.material.payload.observation;
    && row.observationId == o.id && row.schemaVersion == o.schemaVersion && row.subject == o.subject
    && row.statement == o.statement && row.knowledgeClass == o.knowledgeClass && row.unknownReason == o.unknownReason
    && row.observedBy == o.observedBy && row.context == o.context && row.sourceIds == o.sourceIds
    && row.metadata == o.metadata && row.position == e.position && row.eventId == m.eventId
    && row.tenantId == m.tenantId && row.ownerId == m.ownerId && row.applicationId == m.applicationId
    && row.domainPack == m.domainPack && row.occurredAt == Some(m.occurredAt) && row.createdAt == m.recordedAt
    && row.auditId == m.auditId
  }

  /** One more event: its own row if it accepts the observation, else the row there was. */
  lemma ReplayedLast(events: seq<EngineEvent>, id: string)
    requires |events| > 0
    ensures var rest, e := Replay(events[..|events| - 1]), events[|events| - 1];
            if Accepts(e, id) then id in Replay(events) && ShowsEvent(Replay(events)[id], e)
            else (id in Replay(events) <==> id in rest) && (id in rest ==> Replay(events)[id] == rest[id])
  {}

  /** Event `i` is the last that accepts the observation. */
  ghost predicate LastAccepts(events: seq<EngineEvent>, i: nat, id: string) {
    i < |events| && Accepts(events[i], id) && forall j :: i < j < |events| ==> !Accepts(events[j], id)
  }

  /** Replay has one row per accepted observation, and it shows the last event that accepted it. */
  lemma {:induction false} ReplayMeaning(events: seq<EngineEvent>, id: string)
    ensures id in Replay(events) <==> exists i :: 0 <= i < |events| && Accepts(events[i], id)
    ensures id in Replay(events) ==>
              exists i: nat :: LastAccepts(events, i, id) && ShowsEvent(Replay(events)[id], events[i])
  {
    hide Replay, Accepts, ShowsEvent;
    if |events| > 0 {
      var n := |events| - 1;
      var init := events[..n];
      ReplayMeaning(init, id);
      ReplayedLast(events, id);
      assert forall i :: 0 <= i < n ==> init[i] == events[i];
      if Accepts(events[n], id) {
        assert LastAccepts(events, n, id);
      } else if id in Replay(init) {
        var i: nat :| LastAccepts(init, i, id) && ShowsEvent(Replay(init)[id], init[i]);
        assert LastAccepts(events, i, id) && ShowsEvent(Replay(events)[id], events[i]);
      }
    } else {
      NothingReplayed(events, id);
    }
  }

  lemma NothingReplayed(events: seq<EngineEvent>, id: string)
    requires |events| == 0
    ensures id !in Replay(events)
  {}

  /** Two tables have one checksum exactly when they hold the same observations with the same eight columns. */
  lemma ChecksumsCompare(t: Table, u: Table)
    ensures Checksum(t) == Checksum(u) <==>
            && t.Keys == u.Keys
            && forall id :: id in t && id in u ==>
                 && t[id].observationId == u[id].observationId && t[id].position == u[id].position
                 && t[id].eventId == u[id].eventId && t[id].ownerId == u[id].ownerId
                 && t[id].applicationId == u[id].applicationId && t[id].statement == u[id].statement
                 && t[id].subject == u[id].subject && t[id].knowledgeClass == u[id].knowledgeClass
    ensures forall id :: id in t ==>
              && id in Checksum(t) && Checksum(t)[id].statement == t[id].statement
              && Checksum(t)[id].subject == t[id].subject && Checksum(t)[id].ownerId == t[id].ownerId
              && Checksum(t)[id].applicationId == t[id].applicationId
  {
    if Checksum(t) == Checksum(u) {
      assert t.Keys == Checksum(t).Keys == Checksum(u).Keys == u.Keys;
      forall id | id in t && id in u ensures CheckedColumns(t[id]) == CheckedColumns(u[id]) {
        assert Checksum(t)[id] == Checksum(u)[id];
      }
    }
  }

  // ---- batches ------------------------------------------------------------------------------

  /** What stops replay: a type outside the catalog but for one, or an acceptance without its observation. */
  predicate Stops(e: EngineEvent) {
    || (e.material.eventType.Unregistered? && e.material.eventType.name != "ExperimentProgressUpdated")
    || (e.material.eventType == ObservationAccepted && !e.material.payload.ObservationPayload?)
  }

  lemma KnownMeans(e: EngineEvent)
    ensures Known(e) <==> !Stops(e)
    ensures Project(e).Unknown? <==> Stops(e) && e.material.eventType.Unregistered?
    ensures Project(e).Malformed? <==> Stops(e) && !e.material.eventType.Unregistered?
    ensures Project(e).Written?
            <==> e.material.eventType == ObservationAccepted && e.material.payload.ObservationPayload?
  {}

  function Acceptances(events: seq<EngineEvent>): nat {
    if |events| == 0 then 0
    else Acceptances(events[..|events| - 1])
         + if events[|events| - 1].material.eventType == ObservationAccepted then 1 else 0
  }

  function LastId(events: seq<EngineEvent>, before: Option<string>): Option<string> {
    if |events| == 0 then before else Some(events[|events| - 1].material.eventId)
  }

  function LastPosition(events: seq<EngineEvent>, before: nat): nat {
    if |events| == 0 then before else events[|events| - 1].position
  }

  /** One turn of the loop, and of replay, that is not stopped. */
  lemma OneMore(p: Progress, events: seq<EngineEvent>)
    requires |events| > 0 && ApplyAll(p, events[..|events| - 1]).stopped.None? && !Stops(events[|events| - 1])
    ensures var q, r, e := ApplyAll(p, events[..|events| - 1]), ApplyAll(p, events), events[|events| - 1];
            var rest, accepted := Replay(events[..|events| - 1]), e.material.eventType == ObservationAccepted;
            && (accepted ==> e.material.payload.ObservationPayload?)
            && r == Progress(if accepted then Upsert(q.table, ReplayRow(e)) else q.table, e.position,
                             Some(e.material.eventId), q.written + if accepted then 1 else 0, None)
            && Replay(events) == if accepted then Upsert(rest, ReplayRow(e)) else rest
  {
    hide ReplayRow;
    KnownMeans(events[|events| - 1]);
  }

  /** Without a stop the loop counts the acceptances and ends at the last event. */
  lemma {:induction false} BatchCounts(p: Progress, events: seq<EngineEvent>)
    requires p.stopped.None? && forall i :: 0 <= i < |events| ==> !Stops(events[i])
    ensures var q := ApplyAll(p, events);
            && q.stopped.None? && q.written == p.written + Acceptances(events)
            && q.eventId == LastId(events, p.eventId) && q.position == LastPosition(events, p.position)
            && q.table == p.table + Replay(events)
  {
    hide Stops, ReplayRow;
    if |events| > 0 {
      hide ApplyAll, Replay;
      var init := events[..|events| - 1];
      assert forall i :: 0 <= i < |init| ==> init[i] == events[i];
      BatchCounts(p, init);
      OneMore(p, events);
    }
  }

  /** A first stop at `k` leaves what the events before it gave. */
  lemma BatchStops(p: Progress, events: seq<EngineEvent>, k: nat)
    requires p.stopped.None? && k < |events| && Stops(events[k])
    requires forall i :: 0 <= i < k ==> !Stops(events[i])
    ensures ApplyAll(p, events) == ApplyAll(p, events[..k]).(stopped := Some(Project(events[k])))
    ensures ApplyAll(p, events[..k]).stopped.None?
  {
    var upto := events[..k + 1];
    assert upto[..k] == events[..k] && upto[k] == events[k];
    assert forall i :: 0 <= i < k ==> events[..k][i] == events[i];
    BatchCounts(p, events[..k]);
    KnownMeans(events[k]);
    StopIsFinal(p, events, k + 1);
  }

  /** Nothing stops, or there is a first event that does. */
  lemma {:induction false} FirstStop(events: seq<EngineEvent>) returns (k: nat)
    ensures k <= |events| && forall i :: 0 <= i < k ==> !Stops(events[i])
    ensures k < |events| ==> Stops(events[k])
  {
    k := 0;
    while k < |events| && !Stops(events[k])
      invariant k <= |events| && forall i :: 0 <= i < k ==> !Stops(events[i])
    {
      k := k + 1;
    }
  }

  // ---- rebuild ------------------------------------------------------------------------------

  /**
   * A rebuild reads the log from its first event up to the limit, `k` of them before the first that stops it
   * or all. If none stops it and the system stream takes the event, it reports how many it read and how many
   * accepted an observation, makes the replay of what it read live, empties the shadow, and stands READY at the
   * last event with the checksum of live; it records a ProjectionRebuilt event and one audit. An unknown event
   * leaves live and log alone and a checkpoint stopped before it; a malformed one changes nothing at all.
   */
  lemma RebuildReports(db: Db, limit: nat, eventId: string, auditId: string, now: Time) returns (k: nat)
    requires Ordered(db.ledger.log, db.ledger.next)
    ensures var read := db.ledger.log[..if limit < |db.ledger.log| then limit else |db.ledger.log|];
            var o := Rebuild(db, limit, eventId, auditId, now);
            && k <= |read| && (forall i :: 0 <= i < k ==> !Stops(read[i])) && (k < |read| ==> Stops(read[k]))
            && (k < |read| && read[k].material.eventType.Unregistered? ==>
                  && o.result == Err(UnknownEvent)
                  && o.db == db.(shadow := map[], checkpoint :=
                               Some(Checkpoint(LastPosition(read[..k], 0), LastId(read[..k], None), STOPPED, None))))
            && (k < |read| && !read[k].material.eventType.Unregistered? ==>
                  o.result == Err(MalformedEvent) && o.db == db)
            && (k == |read| && o.result.Err? ==> o.result.error.Rejected? && o.db == db)
            && (o.result.Ok? ==>
                  && k == |read| && o.result.value.scanned == |read| && o.result.value.written == Acceptances(read)
                  && o.result.value.position == LastPosition(read, 0)
                  && o.result.value.checksum == Checksum(o.db.live)
                  && o.db.live == Replay(read) && o.db.shadow == map[]
                  && o.db.checkpoint == Some(Checkpoint(LastPosition(read, 0), LastId(read, None), READY,
                                                        Some(Checksum(o.db.live))))
                  && o.db.records == db.records && |o.db.ledger.log| == |db.ledger.log| + 1
                  && db.ledger.log < o.db.ledger.log && IsRebuilt(o.db.ledger.log[|db.ledger.log|], eventId)
                  && o.db.audits == db.audits[auditId := Audit(auditId, SYSTEM_KEY, SYSTEM_ACTOR, "projections.rebuild",
                                                               [], ["accepted_observations"], [eventId], now)])
  {
    hide ApplyAll, After, First, Replay, Project, Stops, LatestVersion, HasEventId, KeyTaken;
    var b := WholeLogBatch(db.ledger.log, db.ledger.next, limit);
    var read := db.ledger.log[..b];
    k := FirstStop(read);
    var p := Progress(map[], 0, None, 0, None);
    if k < |read| {
      BatchStops(p, read, k);
      KnownMeans(read[k]);
      assert forall i :: 0 <= i < k ==> read[..k][i] == read[i];
      BatchCounts(p, read[..k]);
    } else {
      BatchCounts(p, read);
      assert map[] + Replay(read) == Replay(read);
    }
  }

  predicate IsRebuilt(e: EngineEvent, eventId: string) {
    && e.Key() == SYSTEM_KEY && e.material.eventType == ProjectionRebuilt && e.material.aggregateType == "Projection"
    && e.material.aggregateId == "accepted_observations" && e.material.eventId == eventId
  }

  // ---- resume -------------------------------------------------------------------------------

  /**
   * A resume reads the log past the checkpoint, or from the start, up to the limit, and puts the replay of
   * what it read over live. If nothing stops it, it stands READY at the last event, its counts as in a
   * rebuild; an unknown event leaves what came before it applied and the checkpoint stopped there; a
   * malformed one changes nothing.
   */
  lemma ResumeReports(db: Db, limit: nat) returns (k: nat)
    ensures var from := if db.checkpoint.Some? then db.checkpoint.value.position else 0;
            var last := if db.checkpoint.Some? then db.checkpoint.value.eventId else None;
            var read, o := First(After(db.ledger.log, from), limit), Resume(db, limit);
            && k <= |read| && (forall i :: 0 <= i < k ==> !Stops(read[i])) && (k < |read| ==> Stops(read[k]))
            && (k < |read| && read[k].material.eventType.Unregistered? ==>
                  && o.result == Err(UnknownEvent)
                  && o.db == db.(live := db.live + Replay(read[..k]), checkpoint :=
                               Some(Checkpoint(LastPosition(read[..k], from), LastId(read[..k], last), STOPPED, None))))
            && (k < |read| && !read[k].material.eventType.Unregistered? ==>
                  o.result == Err(MalformedEvent) && o.db == db)
            && (k == |read| ==>
                  && o.result == Ok(Rebuilt(|read|, Acceptances(read), LastPosition(read, from), Checksum(o.db.live)))
                  && o.db == db.(live := db.live + Replay(read), checkpoint :=
                               Some(Checkpoint(LastPosition(read, from), LastId(read, last), READY,
                                               Some(Checksum(db.live + Replay(read)))))))
  {
    hide ApplyAll, After, First, Replay, Project, Stops, Checksum;
    var from := if db.checkpoint.Some? then db.checkpoint.value.position else 0;
    var last := if db.checkpoint.Some? then db.checkpoint.value.eventId else None;
    var read := First(After(db.ledger.log, from), limit);
    k := FirstStop(read);
    var p := Progress(db.live, from, last, 0, None);
    if k < |read| {
      BatchStops(p, read, k);
      KnownMeans(read[k]);
      assert forall i :: 0 <= i < k ==> read[..k][i] == read[i];
      BatchCounts(p, read[..k]);
    } else {
      BatchCounts(p, read);
    }
  }

  // ---- verify -------------------------------------------------------------------------------

  /**
   * A verification reports the rows of live, the rows of the replay up to the limit or to the event that
   * stopped it, and the events read; it matches exactly when nothing stopped it and the eight columns of
   * the two tables agree. It writes nothing but the emptied shadow.
   */
  lemma VerifyReports(db: Db, limit: nat) returns (k: nat)
    requires Ordered(db.ledger.log, db.ledger.next)
    ensures var read := db.ledger.log[..if limit < |db.ledger.log| then limit else |db.ledger.log|];
            var o := Verify(db, limit);
            && k <= |read| && (forall i :: 0 <= i < k ==> !Stops(read[i])) && (k < |read| ==> Stops(read[k]))
            && (o.result == Err(MalformedEvent) <==> k < |read| && !read[k].material.eventType.Unregistered?)
            && (o.result.Err? ==> o.result == Err(MalformedEvent) && o.db == db)
            && (o.result.Ok? ==>
                  && o.db == db.(shadow := map[])
                  && o.result.value == Report(k == |read| && Checksum(Replay(read)) == Checksum(db.live), k < |read|,
                                              |db.live|, |Replay(read[..k])|, |read|))
  {
    hide ApplyAll, After, First, Replay, Project, Stops, Checksum;
    var b := WholeLogBatch(db.ledger.log, db.ledger.next, limit);
    var read := db.ledger.log[..b];
    k := FirstStop(read);
    var p := Progress(map[], 0, None, 0, None);
    assert forall i :: 0 <= i < k ==> read[..k][i] == read[i];
    BatchCounts(p, read[..k]);
    assert map[] + Replay(read[..k]) == Replay(read[..k]);
    if k < |read| {
      BatchStops(p, read, k);
      KnownMeans(read[k]);
    } else {
      assert read[..k] == read;
    }
  }
}
