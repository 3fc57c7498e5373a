/**
 * The observation read model as a replay of the log: rebuild through the shadow table, resume from
 * the checkpoint, non-destructive verification.
 */
module Projections {
  import opened Common
  import opened Ledger
  import opened Database

  const PROJECTION_NAME := "accepted_observations"

  // ---- one event ----------------------------------------------------------------------------

  datatype Projected = Skipped | Written(row: Row) | Unknown | Malformed

  /** The row replay writes for an accepted observation: its time is always the event's. */
  function ReplayRow(e: EngineEvent): Row
    requires e.material.payload.ObservationPayload?
  {
    var m, o := e.material, e.material.payload.observation;
    Row(o.id, e.position, m.eventId, m.tenantId, m.ownerId, m.applicationId, m.domainPack, o.schemaVersion,
        o.subject, o.statement, o.knowledgeClass, o.unknownReason, o.observedBy, o.context, o.sourceIds,
        o.metadata, Some(m.occurredAt), m.recordedAt, m.auditId)
  }

  function Project(e: EngineEvent): Projected {
    match e.material.eventType
    case ObservationAccepted =>
      if e.material.payload.ObservationPayload? then Written(ReplayRow(e)) else Malformed
    case Unregistered(name) => if name == "ExperimentProgressUpdated" then Skipped else Unknown
    case _ => Skipped
  }

  predicate Known(e: EngineEvent) { Project(e).Skipped? || Project(e).Written? }

  // ---- many events --------------------------------------------------------------------------

  /** The loop over a batch: rows so far, the last event applied, and what stopped it. */
  datatype Progress = Progress(table: Table, position: nat, eventId: Option<string>, written: nat,
                               stopped: Option<Projected>)

  function ApplyOne(p: Progress, e: EngineEvent): Progress {
    match Project(e)
    case Skipped => p.(position := e.position, eventId := Some(e.material.eventId))
    case Written(row) =>
      p.(table := Upsert(p.table, row), position := e.position, eventId := Some(e.material.eventId),
         written := p.written + 1)
    case _ => p.(stopped := Some(Project(e)))
  }

  function ApplyAll(p: Progress, events: seq<EngineEvent>): Progress {
    if |events| == 0 then p
    else
      var q := ApplyAll(p, events[..|events| - 1]);
      if q.stopped.Some? then q else ApplyOne(q, events[|events| - 1])
  }

  /** The read model a replay of the events yields. */
  function Replay(events: seq<EngineEvent>): Table {
    if |events| == 0 then map[]
    else
      var rest := Replay(events[..|events| - 1]);
      match Project(events[|events| - 1])
      case Written(row) => Upsert(rest, row)
      case _ => rest
  }

  function CheckedColumns(r: Row): Checked {
    Checked(r.observationId, r.position, r.eventId, r.ownerId, r.applicationId, r.statement, r.subject,
            r.knowledgeClass)
  }

  /** The checksummed columns by primary key; ListingsDecideChecksums ties them to the hashed listing. */
  function Checksum(t: Table): map<string, Checked> { map id | id in t :: CheckedColumns(t[id]) }

  /** The events past a position. */
  function After(log: seq<EngineEvent>, from: nat): seq<EngineEvent> {
    if |log| == 0 then []
    else
      var rest, e := After(log[..|log| - 1], from), log[|log| - 1];
      if e.position > from then rest + [e] else rest
  }

  function First(events: seq<EngineEvent>, limit: nat): seq<EngineEvent> {
    if limit < |events| then events[..limit] else events
  }

  // ---- operations ---------------------------------------------------------------------------

  datatype Failure = UnknownEvent | MalformedEvent | Rejected(cause: AppendError)

  datatype Report = Report(matches: bool, quarantined: bool, liveRows: nat, shadowRows: nat, scanned: nat)

  /** What a run leaves behind: the tables it committed, and the error it raised, if any. */
  datatype Outcome<T> = Outcome(db: Db, result: Result<T, Failure>)

  datatype Rebuilt = Rebuilt(scanned: nat, written: nat, position: nat, checksum: map<string, Checked>)

  function Rebuild(db: Db, limit: nat, eventId: string, auditId: string, now: Time): Outcome<Rebuilt> {
    var events := First(After(db.ledger.log, 0), limit);
    var p := ApplyAll(Progress(map[], 0, None, 0, None), events);
    if p.stopped == Some(Malformed) then Outcome(db, Err(MalformedEvent))
    else if p.stopped.Some? then
      Outcome(db.(shadow := map[], checkpoint := Some(Checkpoint(p.position, p.eventId, STOPPED, None))),
              Err(UnknownEvent))
    else
      var d := SystemDraft(db.ledger, ProjectionRebuilt, "Projection", PROJECTION_NAME, "", eventId, auditId, now);
      var appended := AppendOne(db.ledger, d);
      if appended.Err? then Outcome(db, Err(Rejected(appended.error)))
      else
        var checkpoint := Checkpoint(p.position, p.eventId, READY, Some(Checksum(p.table)));
        var audit := Audit(auditId, SYSTEM_KEY, SYSTEM_ACTOR, "projections.rebuild", [], [PROJECTION_NAME], [eventId],
                           now);
        Outcome(db.(ledger := appended.value, live := p.table, shadow := map[], checkpoint := Some(checkpoint),
                    audits := db.audits[auditId := audit]),
                Ok(Rebuilt(|events|, p.written, p.position, Checksum(p.table))))
  }

  function Resume(db: Db, limit: nat): Outcome<Rebuilt> {
    var from := if db.checkpoint.Some? then db.checkpoint.value.position else 0;
    var last := if db.checkpoint.Some? then db.checkpoint.value.eventId else None;
    var events := First(After(db.ledger.log, from), limit);
    var p := ApplyAll(Progress(db.live, from, last, 0, None), events);
    if p.stopped == Some(Malformed) then Outcome(db, Err(MalformedEvent))
    else if p.stopped.Some? then
      Outcome(db.(live := p.table, checkpoint := Some(Checkpoint(p.position, p.eventId, STOPPED, None))),
              Err(UnknownEvent))
    else
      Outcome(db.(live := p.table,
                  checkpoint := Some(Checkpoint(p.position, p.eventId, READY, Some(Checksum(p.table))))),
              Ok(Rebuilt(|events|, p.written, p.position, Checksum(p.table))))
  }

  function Verify(db: Db, limit: nat): Outcome<Report> {
    var events := First(After(db.ledger.log, 0), limit);
    var p := ApplyAll(Progress(map[], 0, None, 0, None), events);
    if p.stopped == Some(Malformed) then Outcome(db, Err(MalformedEvent))
    else
      Outcome(db.(shadow := map[]),
              Ok(Report(p.stopped.None? && Checksum(p.table) == Checksum(db.live), p.stopped.Some?,
                        |db.live|, |p.table|, |events|)))
  }

  // ---- the loop -----------------------------------------------------------------------------

  lemma {:induction false} StopIsFinal(p: Progress, events: seq<EngineEvent>, n: nat)
    requires n <= |events| && ApplyAll(p, events[..n]).stopped.Some?
    ensures ApplyAll(p, events) == ApplyAll(p, events[..n])
  {
    if n == |events| {
      assert events[..n] == events;
    } else {
      assert events[..|events| - 1][..n] == events[..n];
      StopIsFinal(p, events[..|events| - 1], n);
    }
  }

  /**
   * A batch stops exactly when it holds an event that is not known; short of that it adds the
   * replayed rows on top of what the table held and ends at the last event.
   */
  lemma {:induction false} BatchMeaning(p: Progress, events: seq<EngineEvent>)
    requires p.stopped.None?
    ensures ApplyAll(p, events).stopped.None? <==> forall i :: 0 <= i < |events| ==> Known(events[i])
    ensures ApplyAll(p, events).stopped.None? ==>
              && ApplyAll(p, events).table == p.table + Replay(events)
              && ApplyAll(p, events).position == (if |events| == 0 then p.position else events[|events| - 1].position)
  {
    hide Project, ReplayRow;
    if |events| > 0 {
      var init := events[..|events| - 1];
      BatchMeaning(p, init);
      assert forall i :: 0 <= i < |init| ==> init[i] == events[i];
    }
  }

  // ---- the query ----------------------------------------------------------------------------

  /** In position order the query returns a suffix of the log. */
  lemma {:induction false} AfterIsSuffix(log: seq<EngineEvent>, next: nat, from: nat) returns (k: nat)
    requires Ordered(log, next)
    ensures k <= |log| && After(log, from) == log[k..]
    ensures forall i :: 0 <= i < |log| ==> (log[i].position > from <==> i >= k)
  {
    if |log| == 0 { return 0; }
    hide Ordered;
    var init, e := log[..|log| - 1], log[|log| - 1];
    PositionsRise(log, next, init);
    k := AfterIsSuffix(init, next, from);
    assert forall i :: 0 <= i < |init| ==> init[i] == log[i];
    if e.position > from {
      assert init[k..] + [e] == log[k..];
    } else {
      assert k == |init|;
      k := |log|;
    }
  }

  lemma PositionsRise(log: seq<EngineEvent>, next: nat, init: seq<EngineEvent>)
    requires Ordered(log, next) && |log| > 0 && init == log[..|log| - 1]
    ensures Ordered(init, next) && forall i :: 0 <= i < |init| ==> init[i].position < log[|log| - 1].position
  {}

  // ---- what the checksum compares -----------------------------------------------------------

  /** A listing in position order, as the table query returns it. */
  ghost predicate Lists(rows: seq<Row>, t: Table) {
    && (forall i, j :: 0 <= i < j < |rows| ==> rows[i].position < rows[j].position)
    && (forall i :: 0 <= i < |rows| ==> rows[i].observationId in t && t[rows[i].observationId] == rows[i])
    && (forall id :: id in t ==> t[id] in rows)
  }

  ghost predicate Keyed(t: Table) { forall id :: id in t ==> t[id].observationId == id }

  function CheckedListing(rows: seq<Row>): seq<Checked> {
    seq(|rows|, i requires 0 <= i < |rows| => CheckedColumns(rows[i]))
  }

  ghost predicate Ascending(cs: seq<Checked>) { forall i, j :: 0 <= i < j < |cs| ==> cs[i].position < cs[j].position }

  /** Hashing two listings in position order compares exactly the checksummed columns by primary key. */
  lemma ListingsDecideChecksums(xs: seq<Row>, t: Table, ys: seq<Row>, u: Table)
    requires Lists(xs, t) && Lists(ys, u) && Keyed(t) && Keyed(u)
    ensures CheckedListing(xs) == CheckedListing(ys) <==> Checksum(t) == Checksum(u)
  {
    var a, b := CheckedListing(xs), CheckedListing(ys);
    ListedColumns(xs, t);
    ListedColumns(ys, u);
    if a == b {
      assert forall id :: id in Checksum(t) ==> Checksum(t)[id] in a && Checksum(t)[id].observationId == id;
      assert forall id :: id in Checksum(u) ==> Checksum(u)[id] in b && Checksum(u)[id].observationId == id;
    }
    if Checksum(t) == Checksum(u) { AscendingIsUnique(a, b); }
  }

  lemma ListedColumns(xs: seq<Row>, t: Table)
    requires Lists(xs, t) && Keyed(t)
    ensures Ascending(CheckedListing(xs))
    ensures forall c :: c in CheckedListing(xs) <==> c.observationId in Checksum(t) && Checksum(t)[c.observationId] == c
  {
    forall c: Checked | c.observationId in Checksum(t) && Checksum(t)[c.observationId] == c
        ensures c in CheckedListing(xs) {
      var i :| 0 <= i < |xs| && xs[i] == t[c.observationId];
      assert CheckedListing(xs)[i] == c;
    }
  }

  /** An ascending list is determined by its elements. */
  lemma {:induction false} AscendingIsUnique(a: seq<Checked>, b: seq<Checked>)
    requires Ascending(a) && Ascending(b) && forall c :: c in a <==> c in b
    ensures a == b
  {
    hide Ascending;
    assert forall i :: 0 <= i < |a| ==> a[i] in b;
    assert forall i :: 0 <= i < |b| ==> b[i] in a;
    if |a| == 0 || |b| == 0 { return; }
    var x, y := a[|a| - 1], b[|b| - 1];
    AscendingInit(a);
    AscendingInit(b);
    assert x in b && y in a;
    assert x == y;
    assert a == a[..|a| - 1] + [x] && b == b[..|b| - 1] + [x];
    SameRest(a, b, a[..|a| - 1], b[..|b| - 1]);
    AscendingIsUnique(a[..|a| - 1], b[..|b| - 1]);
  }

  lemma SameRest(a: seq<Checked>, b: seq<Checked>, a': seq<Checked>, b': seq<Checked>)
    requires Ascending(a) && Ascending(b) && |a| > 0 && |b| > 0 && a[|a| - 1] == b[|b| - 1]
             && forall c :: c in a <==> c in b
    requires a' == a[..|a| - 1] && b' == b[..|b| - 1]
    ensures forall c :: c in a' <==> c in b'
  {
    hide Ascending;
    AscendingInit(a);
    AscendingInit(b);
    forall c | c in a' ensures c in b' { assert c in a && c in b; }
    forall c | c in b' ensures c in a' { assert c in b && c in a; }
  }

  /** The last element comes after every other one. */
  lemma AscendingInit(a: seq<Checked>)
    requires Ascending(a) && |a| > 0
    ensures Ascending(a[..|a| - 1])
    ensures forall c :: c in a <==> c in a[..|a| - 1] || c == a[|a| - 1]
    ensures forall c :: c in a[..|a| - 1] ==> c.position < a[|a| - 1].position
  {
    assert a == a[..|a| - 1] + [a[|a| - 1]];
  }
}
