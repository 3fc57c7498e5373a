/** The live read model against a replay of the log, in every reachable state and for every read limit. */
module ProjectionTheorems {
  import opened Common
  import opened Ledger
  import opened Database
  import opened Projections
  import S = Submission

  // ---- replay -------------------------------------------------------------------------------

  lemma {:induction false} ReplayOfConcat(a: seq<EngineEvent>, b: seq<EngineEvent>)
    ensures Replay(a + b) == Replay(a) + Replay(b)
  {
    if |b| == 0 {
      assert a + b == a;
    } else {
      assert (a + b)[..|a + b| - 1] == a + b[..|b| - 1];
      ReplayOfConcat(a, b[..|b| - 1]);
    }
  }

  /** Every replayed row is that of one of the events. */
  lemma {:induction false} ReplayedFrom(events: seq<EngineEvent>, id: string) returns (i: nat)
    requires id in Replay(events)
    ensures i < |events| && Project(events[i]) == Written(Replay(events)[id]) && Replay(events)[id].observationId == id
  {
    var init, last := events[..|events| - 1], events[|events| - 1];
    if Project(last).Written? && Project(last).row.observationId == id {
      i := |events| - 1;
    } else {
      i := ReplayedFrom(init, id);
    }
  }

  lemma {:induction false} ReplayHasKey(events: seq<EngineEvent>, i: nat)
    requires i < |events| && Project(events[i]).Written?
    ensures Project(events[i]).row.observationId in Replay(events)
  {
    if i < |events| - 1 { ReplayHasKey(events[..|events| - 1], i); }
  }

  ghost predicate AllKnown(events: seq<EngineEvent>) { forall i :: 0 <= i < |events| ==> Known(events[i]) }

  /** Each observation is accepted once: its row in the replay is the row of its own event. */
  ghost predicate Distinct(log: seq<EngineEvent>) {
    forall i :: 0 <= i < |log| && Project(log[i]).Written? ==>
      Project(log[i]).row.observationId in Replay(log)
      && Replay(log)[Project(log[i]).row.observationId] == Project(log[i]).row
  }

  lemma RowsOfSlice(log: seq<EngineEvent>, a: nat, b: nat, id: string)
    requires Distinct(log) && a <= b <= |log| && id in Replay(log[a..b])
    ensures id in Replay(log) && Replay(log)[id] == Replay(log[a..b])[id]
  {
    var i := ReplayedFrom(log[a..b], id);
    assert log[a..b][i] == log[a + i];
  }

  // ---- the batch ----------------------------------------------------------------------------

  /** A limited query returns a slice of the log, holding every event from the cursor to the slice's end. */
  lemma BatchIsSlice(log: seq<EngineEvent>, next: nat, from: nat, limit: nat) returns (a: nat, b: nat)
    requires Ordered(log, next)
    ensures a <= b <= |log| && First(After(log, from), limit) == log[a..b]
    ensures forall i :: 0 <= i < |log| ==> (log[i].position > from <==> i >= a)
    ensures |After(log, from)| == |log| - a && b == (if a + limit < |log| then a + limit else |log|)
  {
    a := AfterIsSuffix(log, next, from);
    b := if a + limit < |log| then a + limit else |log|;
    assert First(log[a..], limit) == log[a..b];
  }

  /** Read from the start, the batch is the first `limit` events. */
  lemma WholeLogBatch(log: seq<EngineEvent>, next: nat, limit: nat) returns (b: nat)
    requires Ordered(log, next)
    ensures b <= |log| && First(After(log, 0), limit) == log[0..b] == log[..b]
    ensures b == |First(log, limit)| == if limit < |log| then limit else |log|
  {
    var a: nat;
    a, b := BatchIsSlice(log, next, 0, limit);
    if |log| > 0 { assert log[0].position > 0; }
  }

  /** Where a batch of known events leaves the loop. */
  lemma BatchEnds(p: Progress, log: seq<EngineEvent>, a: nat, b: nat)
    requires p.stopped.None? && a <= b <= |log| && AllKnown(log)
    ensures var q := ApplyAll(p, log[a..b]);
            && q.stopped.None? && q.table == p.table + Replay(log[a..b])
            && q.position == (if a == b then p.position else log[b - 1].position)
  {
    BatchMeaning(p, log[a..b]);
  }

  // ---- what every reachable state keeps -----------------------------------------------------

  predicate SameButTime(r: Row, replayed: Row) {
    && r.(occurredAt := replayed.occurredAt) == replayed && replayed.occurredAt.Some?
    && (r.occurredAt.Some? ==> r.occurredAt == replayed.occurredAt)
  }

  /** Live holds rows of the replay only, up to an absent client time. */
  ghost predicate LiveWithin(db: Db) {
    forall id :: id in db.live ==> id in Replay(db.ledger.log) && SameButTime(db.live[id], Replay(db.ledger.log)[id])
  }

  /** Every observation accepted up to the position is in live. */
  ghost predicate Covers(db: Db, position: nat) {
    forall i :: && 0 <= i < |db.ledger.log| && db.ledger.log[i].position <= position
                && Project(db.ledger.log[i]).Written? ==>
      Project(db.ledger.log[i]).row.observationId in db.live
  }

  ghost predicate Mirrors(db: Db) {
    && Ordered(db.ledger.log, db.ledger.next) && db.ledger.next > 0
    && AllKnown(db.ledger.log) && Distinct(db.ledger.log)
    && LiveWithin(db) && (db.checkpoint.Some? ==> Covers(db, db.checkpoint.value.position))
  }

  ghost predicate Complete(db: Db) { forall id :: id in Replay(db.ledger.log) ==> id in db.live }

  lemma CompleteMeansEqual(db: Db)
    requires LiveWithin(db)
    ensures Complete(db) <==> Checksum(db.live) == Checksum(Replay(db.ledger.log))
  {
    if Checksum(db.live) == Checksum(Replay(db.ledger.log)) {
      forall id | id in Replay(db.ledger.log) ensures id in db.live { assert id in Checksum(Replay(db.ledger.log)); }
    }
  }

  // ---- steps of the log ---------------------------------------------------------------------

  lemma ReplayOfAppend(log: seq<EngineEvent>, e: EngineEvent)
    ensures Replay(log + [e]) == if Project(e).Written? then Upsert(Replay(log), Project(e).row) else Replay(log)
  {
    assert (log + [e])[..|log|] == log;
  }

  lemma OtherEventKeepsMirror(db: Db, e: EngineEvent)
    requires Mirrors(db) && Project(e).Skipped? && e.position == db.ledger.next
    ensures var after := db.(ledger := db.ledger.(log := db.ledger.log + [e], next := db.ledger.next + 1));
            Mirrors(after) && Replay(after.ledger.log) == Replay(db.ledger.log)
  {
    ReplayOfAppend(db.ledger.log, e);
  }

  lemma MirrorIgnoresHeads(db: Db, after: Db)
    requires Mirrors(db) && after.ledger.log == db.ledger.log && after.ledger.next >= db.ledger.next
    requires after.live == db.live && after.checkpoint == db.checkpoint
    ensures Mirrors(after)
  {}

  lemma OtherAppendsKeepMirror(db: Db, drafts: seq<Draft>)
    requires Mirrors(db) && S.AppendMany(db.ledger, drafts).Ok?
    requires forall d :: d in drafts ==> d.material.eventType != ObservationAccepted
    ensures var after := db.(ledger := S.AppendMany(db.ledger, drafts).value);
            Mirrors(after) && Replay(after.ledger.log) == Replay(db.ledger.log)
  {
    hide LatestVersion, HasEventId, KeyTaken, Mirrors;
    if |drafts| > 0 {
      var init, d := drafts[..|drafts| - 1], drafts[|drafts| - 1];
      OtherAppendsKeepMirror(db, init);
      OtherAppendKeepsMirror(db.(ledger := S.AppendMany(db.ledger, init).value), d);
    }
  }

  lemma OtherAppendKeepsMirror(db: Db, d: Draft)
    requires Mirrors(db) && AppendOne(db.ledger, d).Ok? && d.material.eventType != ObservationAccepted
    ensures var after := db.(ledger := AppendOne(db.ledger, d).value);
            Mirrors(after) && Replay(after.ledger.log) == Replay(db.ledger.log)
  {
    hide LatestVersion, HasEventId, KeyTaken, Mirrors, Replay;
    var e := Persist(db.ledger, d);
    assert Project(e).Skipped?;
    OtherEventKeepsMirror(db, e);
    MirrorIgnoresHeads(db.(ledger := db.ledger.(log := db.ledger.log + [e], next := db.ledger.next + 1)),
                       db.(ledger := AppendOne(db.ledger, d).value));
  }

  lemma FreshIsNotReplayed(log: seq<EngineEvent>, id: string)
    requires S.FreshObservation(log, id)
    ensures id !in Replay(log)
  {
    assert forall i :: 0 <= i < |log| ==> log[i] in log;
    if id in Replay(log) { var i := ReplayedFrom(log, id); }
  }

  lemma CommitKeepsMirror(db: Db, r: S.Request, f: S.NewIds)
    requires Mirrors(db) && S.FreshObservation(db.ledger.log, f.observationId) && S.Commit(db, r, f).Ok?
    ensures Mirrors(S.Commit(db, r, f).value)
    ensures Complete(db) ==> Complete(S.Commit(db, r, f).value)
  {
    hide LatestVersion, HasEventId, KeyTaken, Replay, S.FreshObservation;
    var e := Persist(db.ledger, S.DraftOf(r, f));
    var after := S.Commit(db, r, f).value;
    var row := ReplayRow(e);
    ReplayOfAppend(db.ledger.log, e);
    FreshIsNotReplayed(db.ledger.log, f.observationId);
    assert SameButTime(after.live[f.observationId], row);
    assert forall i :: 0 <= i < |db.ledger.log| ==> after.ledger.log[i] == db.ledger.log[i];
  }

  // ---- rebuild, resume, verify --------------------------------------------------------------

  lemma ResumeKeepsMirror(db: Db, limit: nat)
    requires Mirrors(db)
    ensures Mirrors(Resume(db, limit).db) && Resume(db, limit).result.Ok? && Resume(db, limit).db.ledger == db.ledger
    ensures db.live.Keys <= Resume(db, limit).db.live.Keys
    ensures Complete(db) ==> Complete(Resume(db, limit).db)
  {
    hide Replay, ApplyAll, After, First;
    var log := db.ledger.log;
    var from := if db.checkpoint.Some? then db.checkpoint.value.position else 0;
    var last := if db.checkpoint.Some? then db.checkpoint.value.eventId else None;
    var a, b := BatchIsSlice(log, db.ledger.next, from, limit);
    BatchEnds(Progress(db.live, from, last, 0, None), log, a, b);
    var after := Resume(db, limit).db;
    forall id | id in after.live
      ensures id in Replay(log) && SameButTime(after.live[id], Replay(log)[id])
    {
      if id in Replay(log[a..b]) { SliceRow(log, a, b, id); }
    }
    forall i | 0 <= i < |log| && log[i].position <= after.checkpoint.value.position && Project(log[i]).Written?
      ensures Project(log[i]).row.observationId in after.live
    {
      if i >= a { assert i < b; assert log[a..b][i - a] == log[i]; ReplayHasKey(log[a..b], i - a); }
    }
  }

  /** A replayed slice holds the rows the whole replay holds, with their time. */
  lemma SliceRow(log: seq<EngineEvent>, a: nat, b: nat, id: string)
    requires Distinct(log) && a <= b <= |log| && id in Replay(log[a..b])
    ensures id in Replay(log) && Replay(log)[id] == Replay(log[a..b])[id]
            && SameButTime(Replay(log[a..b])[id], Replay(log)[id])
  {
    RowsOfSlice(log, a, b, id);
    var i := ReplayedFrom(log[a..b], id);
  }

  lemma RebuildKeepsMirror(db: Db, limit: nat, eventId: string, auditId: string, now: Time)
    requires Mirrors(db)
    ensures var o := Rebuild(db, limit, eventId, auditId, now);
            && Mirrors(o.db) && Replay(o.db.ledger.log) == Replay(db.ledger.log)
            && (o.result.Err? ==> o.db == db && o.result.error.Rejected?)
            && (o.result.Ok? ==> o.db.live == Replay(db.ledger.log[..|First(db.ledger.log, limit)|]))
            && (Complete(db) && limit >= |db.ledger.log| ==> Complete(o.db))
  {
    hide Replay, ApplyAll, After, First, AppendOne, Mirrors, Ordered, AllKnown, Checksum;
    var log := db.ledger.log;
    MirrorsGive(db);
    var b := WholeLogBatch(log, db.ledger.next, limit);
    BatchEnds(Progress(map[], 0, None, 0, None), log, 0, b);
    assert map[] + Replay(log[..b]) == Replay(log[..b]);
    var o := Rebuild(db, limit, eventId, auditId, now);
    if o.result.Ok? {
      var d := SystemDraft(db.ledger, ProjectionRebuilt, "Projection", PROJECTION_NAME, "", eventId, auditId, now);
      var built := db.(live := Replay(log[..b]), checkpoint := o.db.checkpoint);
      RebuiltMirrors(db, b, built);
      OtherAppendKeepsMirror(built, d);
      assert o.db.ledger == AppendOne(built.ledger, d).value;
      MirrorIgnoresHeads(built.(ledger := o.db.ledger), o.db);
      if limit >= |log| { assert log[..b] == log; }
    }
  }

  lemma FirstIsPrefix(log: seq<EngineEvent>, limit: nat)
    ensures First(log, limit) == log[..if limit < |log| then limit else |log|]
  {}

  lemma RebuiltMirrors(db: Db, b: nat, built: Db)
    requires Mirrors(db) && b <= |db.ledger.log| && built.ledger == db.ledger
             && built.live == Replay(db.ledger.log[..b])
    requires built.checkpoint.Some? && built.checkpoint.value.position == if b == 0 then 0
               else db.ledger.log[b - 1].position
    ensures Mirrors(built)
  {
    hide Replay;
    var log := db.ledger.log;
    assert log[0..b] == log[..b];
    forall id | id in built.live ensures id in Replay(log) && SameButTime(built.live[id], Replay(log)[id]) {
      SliceRow(log, 0, b, id);
    }
    forall i | 0 <= i < |log| && log[i].position <= built.checkpoint.value.position && Project(log[i]).Written?
      ensures Project(log[i]).row.observationId in built.live
    {
      assert i < b && log[..b][i] == log[i];
      ReplayHasKey(log[..b], i);
    }
  }

  /** Verification never writes live; it compares live with the replay of the events it read. */
  lemma VerifyMeans(db: Db, limit: nat)
    requires Mirrors(db)
    ensures var o := Verify(db, limit);
            && o.db == db.(shadow := map[]) && o.result.Ok? && !o.result.value.quarantined
            && (o.result.value.matches
                <==> Checksum(Replay(db.ledger.log[..|First(db.ledger.log, limit)|])) == Checksum(db.live))
  {
    hide Replay, ApplyAll, After, First;
    var log := db.ledger.log;
    var b := WholeLogBatch(log, db.ledger.next, limit);
    BatchEnds(Progress(map[], 0, None, 0, None), log, 0, b);
    assert map[] + Replay(log[..b]) == Replay(log[..b]);
  }

  lemma StepKeepsMirror(w: S.World, step: S.Step, v: S.World)
    requires S.Next(w, step, v) && Mirrors(w.db)
    ensures Mirrors(v.db)
    ensures Complete(w.db) && (step.Rebuild? ==> step.limit >= |w.db.ledger.log|) ==> Complete(v.db)
  {
    hide Mirrors, Replay, S.Commit, Rebuild, Resume, Verify, S.AppendMany;
    match step
    case Arrive(_) =>
    case Find(_) =>
    case Refind(_) =>
    case Write(c, f) =>
      if S.Commit(w.db, w.clients[c].request, f).Ok? { CommitKeepsMirror(w.db, w.clients[c].request, f); }
    case OtherUseCase(drafts, scope, record, auditId, audit) =>
      if v != w {
        OtherAppendsKeepMirror(w.db, drafts);
        MirrorIgnoresHeads(w.db.(ledger := S.AppendMany(w.db.ledger, drafts).value), v.db);
      }
    case SetStatus(_, _, _) => MirrorIgnoresHeads(w.db, v.db);
    case Rebuild(limit, eventId, auditId, now) => RebuildKeepsMirror(w.db, limit, eventId, auditId, now);
    case Resume(limit) => ResumeKeepsMirror(w.db, limit);
    case Verify(limit) => VerifyMeans(w.db, limit); MirrorIgnoresHeads(w.db, v.db);
    case SkipPositions(_) => MirrorIgnoresHeads(w.db, v.db);
  }

  // ---- every run ----------------------------------------------------------------------------

  lemma {:induction false} MirrorsThroughout(trace: seq<S.World>, steps: seq<S.Step>, i: nat)
    requires S.Run(trace, steps) && i < |trace|
    ensures Mirrors(trace[i].db)
    ensures (forall m :: 0 <= m < i && steps[m].Rebuild? ==> steps[m].limit >= |trace[m].db.ledger.log|) ==>
              Complete(trace[i].db)
  {
    hide Mirrors, Complete;
    if i == 0 {
      EmptyMirrors();
    } else {
      MirrorsThroughout(trace, steps, i - 1);
      StepKeepsMirror(trace[i - 1], steps[i - 1], trace[i]);
    }
  }

  lemma EmptyMirrors()
    ensures Mirrors(EMPTY_DB) && Complete(EMPTY_DB)
  {}

  /**
   * In every run whose rebuilds read the whole log, live carries exactly the checksum of a full replay;
   * verification says so, and neither verification nor a further rebuild meets an unknown event.
   */
  lemma LiveAgreesWithReplay(trace: seq<S.World>, steps: seq<S.Step>, i: nat, limit: nat, eventId: string,
                             auditId: string, now: Time)
    requires S.Run(trace, steps) && i < |trace| && limit >= |trace[i].db.ledger.log|
    requires forall m :: 0 <= m < i && steps[m].Rebuild? ==> steps[m].limit >= |trace[m].db.ledger.log|
    ensures Checksum(trace[i].db.live) == Checksum(Replay(trace[i].db.ledger.log))
    ensures Verify(trace[i].db, limit).result.Ok?
    ensures Verify(trace[i].db, limit).result.value.matches && !Verify(trace[i].db, limit).result.value.quarantined
    ensures var r := Rebuild(trace[i].db, limit, eventId, auditId, now).result; r.Err? ==> r.error.Rejected?
  {
    hide *;
    var db := trace[i].db;
    MirrorsThroughout(trace, steps, i);
    MirrorsGive(db);
    CompleteMeansEqual(db);
    VerifyMeans(db, limit);
    FirstIsPrefix(db.ledger.log, limit);
    assert db.ledger.log[..|db.ledger.log|] == db.ledger.log;
    RebuildKeepsMirror(db, limit, eventId, auditId, now);
  }

  /** Accepted observations and live rows are in one-to-one correspondence. */
  lemma OneRowPerObservation(trace: seq<S.World>, steps: seq<S.Step>, i: nat)
    requires S.Run(trace, steps) && i < |trace|
    requires forall m :: 0 <= m < i && steps[m].Rebuild? ==> steps[m].limit >= |trace[m].db.ledger.log|
    ensures var db := trace[i].db;
            && (forall k :: 0 <= k < |db.ledger.log| && S.Accepted(db.ledger.log[k]) ==> HasRow(db, db.ledger.log[k]))
            && (forall id :: id in db.live ==> exists k :: 0 <= k < |db.ledger.log| && S.Accepted(db.ledger.log[k])
                                                           && IsRowOf(db.live[id], db.ledger.log[k]))
  {
    hide Replay, S.Run;
    var db := trace[i].db;
    MirrorsThroughout(trace, steps, i);
    forall id | id in db.live
      ensures exists k ::
                0 <= k < |db.ledger.log| && S.Accepted(db.ledger.log[k]) && IsRowOf(db.live[id], db.ledger.log[k])
    {
      var k := ReplayedFrom(db.ledger.log, id);
      assert IsRowOf(db.live[id], db.ledger.log[k]);
    }
    forall k | 0 <= k < |db.ledger.log| && S.Accepted(db.ledger.log[k]) ensures HasRow(db, db.ledger.log[k]) {
      assert Known(db.ledger.log[k]);
    }
  }

  /** The row is the event's: its observation, its place in the log, its owner and its audit. */
  predicate IsRowOf(r: Row, e: EngineEvent) {
    && e.material.payload.ObservationPayload? && r.observationId == e.material.payload.observation.id
    && r.eventId == e.material.eventId && r.position == e.position && r.ownerId == e.material.ownerId
    && r.applicationId == e.material.applicationId && r.auditId == e.material.auditId
  }

  predicate HasRow(db: Db, e: EngineEvent) {
    && e.material.payload.ObservationPayload? && e.material.payload.observation.id in db.live
    && IsRowOf(db.live[e.material.payload.observation.id], e)
  }

  lemma MirrorsGive(db: Db)
    requires Mirrors(db)
    ensures Ordered(db.ledger.log, db.ledger.next) && AllKnown(db.ledger.log) && Distinct(db.ledger.log)
            && LiveWithin(db)
  {}

  /**
   * With a read limit below the log's length, verification of a complete live model matches exactly
   * when no observation lies past the limit.
   */
  lemma VerifyUnderLimit(db: Db, limit: nat)
    requires Mirrors(db) && Complete(db)
    ensures Verify(db, limit).result.Ok?
    ensures Verify(db, limit).result.value.matches <==>
            forall i :: limit <= i < |db.ledger.log| ==> !Project(db.ledger.log[i]).Written?
  {
    hide Replay, Verify, Complete, Mirrors;
    var log := db.ledger.log;
    VerifyMeans(db, limit);
    MirrorsGive(db);
    CompleteMeansEqual(db);
    var b := if limit < |log| then limit else |log|;
    FirstIsPrefix(log, limit);
    PrefixChecksum(log, db.ledger.next, b);
  }

  lemma PrefixChecksum(log: seq<EngineEvent>, next: nat, b: nat)
    requires Ordered(log, next) && Distinct(log) && b <= |log|
    ensures Checksum(Replay(log[..b])) == Checksum(Replay(log))
            <==> forall i :: b <= i < |log| ==> !Project(log[i]).Written?
  {
    hide Replay, Project, Ordered, Distinct;
    if forall i :: b <= i < |log| ==> !Project(log[i]).Written? {
      ReplayOfConcat(log[..b], log[b..]);
      assert log == log[..b] + log[b..];
      NothingReplayed(log[b..]);
    } else {
      var i :| b <= i < |log| && Project(log[i]).Written?;
      LaterRowIsMissing(log, next, b, i);
    }
  }

  lemma NothingReplayed(events: seq<EngineEvent>)
    requires forall i :: 0 <= i < |events| ==> !Project(events[i]).Written?
    ensures Replay(events) == map[]
  {}

  lemma LaterRowIsMissing(log: seq<EngineEvent>, next: nat, b: nat, i: nat)
    requires Ordered(log, next) && Distinct(log) && b <= i < |log| && Project(log[i]).Written?
    ensures Checksum(Replay(log[..b])) != Checksum(Replay(log))
  {
    hide Replay, Ordered, ReplayRow;
    PositionsDiffer(log, next);
    var id := Project(log[i]).row.observationId;
    assert forall j :: 0 <= j < b ==> log[..b][j] == log[j];
    if id in Replay(log[..b]) { var j := ReplayedFrom(log[..b], id); }
    assert id in Checksum(Replay(log));
  }

  lemma PositionsDiffer(log: seq<EngineEvent>, next: nat)
    requires Ordered(log, next)
    ensures forall i, j ::
              0 <= i < j < |log| && Project(log[i]).Written? && Project(log[j]).Written? ==>
                Project(log[i]) != Project(log[j])
  {}

  // ---- what rebuilding changes --------------------------------------------------------------

  /**
   * A full rebuild of a complete live model gives back the very same rows exactly when no row lacks
   * its client time: replay fills every absent one with the time of the event.
   */
  lemma RebuildKeepsRowsExactly(db: Db, limit: nat, eventId: string, auditId: string, now: Time)
    requires Mirrors(db) && Complete(db) && limit >= |db.ledger.log|
    requires Rebuild(db, limit, eventId, auditId, now).result.Ok?
    ensures Rebuild(db, limit, eventId, auditId, now).db.live == db.live <==>
            forall id :: id in db.live ==> db.live[id].occurredAt.Some?
    ensures Rebuild(db, limit, eventId, auditId, now).db.live == Replay(db.ledger.log)
  {
    hide Replay, Rebuild, Mirrors;
    RebuildKeepsMirror(db, limit, eventId, auditId, now);
    MirrorsGive(db);
    assert db.ledger.log[..|db.ledger.log|] == db.ledger.log;
    FirstIsPrefix(db.ledger.log, limit);
    var replayed := Replay(db.ledger.log);
    if forall id :: id in db.live ==> db.live[id].occurredAt.Some? {
      assert forall id :: id in db.live ==> db.live[id] == replayed[id];
      assert db.live == replayed;
    }
  }

  /** Whatever goes wrong, a rebuild that fails and every verification leave live and the log as they were. */
  lemma FailClosed(db: Db, limit: nat, eventId: string, auditId: string, now: Time)
    requires Ordered(db.ledger.log, db.ledger.next)
    ensures var o := Rebuild(db, limit, eventId, auditId, now);
            && (o.result.Err? ==> o.db.live == db.live && o.db.ledger == db.ledger)
            && (o.result.Err? && !o.result.error.Rejected? <==> !AllKnown(First(db.ledger.log, limit)))
    ensures Verify(db, limit).db == db.(shadow := Verify(db, limit).db.shadow)
    ensures Verify(db, limit).result.Ok? && !Verify(db, limit).result.value.quarantined
            <==> AllKnown(First(db.ledger.log, limit))
  {
    hide Replay, ApplyAll, After, First, AppendOne, LatestVersion;
    var b := WholeLogBatch(db.ledger.log, db.ledger.next, limit);
    FirstIsPrefix(db.ledger.log, limit);
    BatchMeaning(Progress(map[], 0, None, 0, None), First(db.ledger.log, limit));
  }

  /**
   * Resuming into an unknown event commits the rows before it and stops there: the checkpoint stands
   * at the last event applied, so the next resume meets the same event first.
   */
  lemma ResumeStopsAtUnknown(db: Db, limit: nat, k: nat)
    requires Ordered(db.ledger.log, db.ledger.next)
    requires var from := if db.checkpoint.Some? then db.checkpoint.value.position else 0;
             var events := First(After(db.ledger.log, from), limit);
             k < |events| && AllKnown(events[..k]) && Project(events[k]).Unknown?
    ensures var from := if db.checkpoint.Some? then db.checkpoint.value.position else 0;
            var events := First(After(db.ledger.log, from), limit);
            var o := Resume(db, limit);
            && o.result == Err(UnknownEvent)
            && o.db.live == db.live + Replay(events[..k])
            && o.db.checkpoint.Some? && o.db.checkpoint.value.status == STOPPED
            && o.db.checkpoint.value.position == (if k == 0 then from else events[k - 1].position)
  {
    hide Replay, After, First;
    var from := if db.checkpoint.Some? then db.checkpoint.value.position else 0;
    var last := if db.checkpoint.Some? then db.checkpoint.value.eventId else None;
    var events := First(After(db.ledger.log, from), limit);
    var p := Progress(db.live, from, last, 0, None);
    BatchMeaning(p, events[..k]);
    var upto := events[..k + 1];
    assert upto[..k] == events[..k] && upto[k] == events[k];
    assert ApplyAll(p, upto) == ApplyAll(p, events[..k]).(stopped := Some(Unknown));
    StopIsFinal(p, events, k + 1);
  }

  // ---- catching up --------------------------------------------------------------------------

  function ResumeTimes(db: Db, limit: nat, n: nat): Db {
    if n == 0 then db else Resume(ResumeTimes(db, limit, n - 1), limit).db
  }

  /** Live is the replay of the first `m` events and the checkpoint stands right after them. */
  ghost predicate CaughtUpTo(db: Db, m: nat) {
    && m <= |db.ledger.log| && db.live == Replay(db.ledger.log[..m])
    && db.checkpoint.Some? && db.checkpoint.value.status == READY
       && db.checkpoint.value.checksum == Some(Checksum(db.live))
    && db.checkpoint.value.position == if m == 0 then 0 else db.ledger.log[m - 1].position
  }

  /** From position to index: what lies past the m-th event is the rest of the log. */
  lemma AfterIndex(log: seq<EngineEvent>, next: nat, m: nat)
    requires Ordered(log, next) && m <= |log|
    ensures After(log, if m == 0 then 0 else log[m - 1].position) == log[m..]
  {
    var from := if m == 0 then 0 else log[m - 1].position;
    var k := AfterIsSuffix(log, next, from);
    if m > 0 { assert k > m - 1; }
    if m < |log| { assert log[m].position > from; }
  }

  lemma ResumeAdvances(db: Db, limit: nat, m: nat)
    requires Ordered(db.ledger.log, db.ledger.next) && AllKnown(db.ledger.log) && CaughtUpTo(db, m)
    ensures var to := if m + limit < |db.ledger.log| then m + limit else |db.ledger.log|;
            CaughtUpTo(Resume(db, limit).db, to) && Resume(db, limit).db.ledger == db.ledger
  {
    hide Replay, ApplyAll, After, First, Ordered, Checksum, AllKnown;
    var log := db.ledger.log;
    var to := if m + limit < |log| then m + limit else |log|;
    AfterIndex(log, db.ledger.next, m);
    assert First(log[m..], limit) == log[m..to] by { FirstIsPrefix(log[m..], limit); }
    BatchEnds(Progress(db.live, db.checkpoint.value.position, db.checkpoint.value.eventId, 0, None), log, m, to);
    ReplayOfConcat(log[..m], log[m..to]);
    assert log[..m] + log[m..to] == log[..to];
  }

  lemma {:induction false} ResumesAdvance(db: Db, limit: nat, m: nat, n: nat)
    requires Ordered(db.ledger.log, db.ledger.next) && AllKnown(db.ledger.log) && m <= |db.ledger.log|
             && CaughtUpTo(db, m)
    ensures var to := if m + n * limit < |db.ledger.log| then m + n * limit else |db.ledger.log|;
            CaughtUpTo(ResumeTimes(db, limit, n), to) && ResumeTimes(db, limit, n).ledger == db.ledger
  {
    hide CaughtUpTo, Resume;
    if n > 0 {
      var before := if m + (n - 1) * limit < |db.ledger.log| then m + (n - 1) * limit else |db.ledger.log|;
      ResumesAdvance(db, limit, m, n - 1);
      ResumeAdvances(ResumeTimes(db, limit, n - 1), limit, before);
      assert n * limit == (n - 1) * limit + limit;
    }
  }

  /**
   * For any read limit and any log of known events, one rebuild followed by enough resumes gives
   * exactly the rows, checksum and last position of a replay of the whole log.
   */
  lemma RebuildThenResume(db: Db, limit: nat, eventId: string, auditId: string, now: Time, n: nat)
    requires Ordered(db.ledger.log, db.ledger.next) && db.ledger.next > 0 && AllKnown(db.ledger.log)
    requires Rebuild(db, limit, eventId, auditId, now).result.Ok? && |db.ledger.log| + 1 <= (n + 1) * limit && n > 0
    ensures var rebuilt := Rebuild(db, limit, eventId, auditId, now).db;
            var log := rebuilt.ledger.log;
            var caught := ResumeTimes(rebuilt, limit, n);
            && |log| == |db.ledger.log| + 1 && db.ledger.log < log && caught.ledger == rebuilt.ledger
            && caught.live == Replay(log) && caught.checkpoint.Some?
            && caught.checkpoint.value.checksum == Some(Checksum(Replay(log)))
            && caught.checkpoint.value.position == log[|log| - 1].position
  {
    hide Replay, ResumeTimes, LatestVersion, HasEventId, KeyTaken, ApplyAll, After, Rebuild;
    var rebuilt := Rebuild(db, limit, eventId, auditId, now).db;
    var m := RebuildStart(db, limit, eventId, auditId, now);
    ResumesAdvance(rebuilt, limit, m, n);
    var log := rebuilt.ledger.log;
    assert (n + 1) * limit == n * limit + limit;
    if m < limit { ProductAtLeastOne(n, limit); }
    assert log[..|log|] == log;
  }

  lemma ProductAtLeastOne(n: nat, limit: nat)
    requires n > 0 && limit > 0
    ensures n * limit >= limit >= 1
  {}

  lemma RebuildStart(db: Db, limit: nat, eventId: string, auditId: string, now: Time) returns (m: nat)
    requires Ordered(db.ledger.log, db.ledger.next) && db.ledger.next > 0 && AllKnown(db.ledger.log)
    requires Rebuild(db, limit, eventId, auditId, now).result.Ok?
    ensures m == if limit < |db.ledger.log| then limit else |db.ledger.log|
    ensures var rebuilt := Rebuild(db, limit, eventId, auditId, now).db;
            && CaughtUpTo(rebuilt, m) && Ordered(rebuilt.ledger.log, rebuilt.ledger.next)
               && AllKnown(rebuilt.ledger.log)
            && |rebuilt.ledger.log| == |db.ledger.log| + 1 && db.ledger.log < rebuilt.ledger.log
  {
    hide Replay, ApplyAll, After, First, LatestVersion, HasEventId, KeyTaken;
    m := WholeLogBatch(db.ledger.log, db.ledger.next, limit);
    BatchEnds(Progress(map[], 0, None, 0, None), db.ledger.log, 0, m);
    var rebuilt := Rebuild(db, limit, eventId, auditId, now).db;
    assert rebuilt.ledger.log[..m] == db.ledger.log[..m];
    assert map[] + Replay(db.ledger.log[..m]) == Replay(db.ledger.log[..m]);
  }

  /** Resuming where live is ahead of the checkpoint changes no checksummed column. */
  lemma ResumeWhenAhead(db: Db, limit: nat)
    requires Mirrors(db) && Complete(db)
    ensures Checksum(Resume(db, limit).db.live) == Checksum(db.live)
  {
    hide Resume, Replay, Mirrors;
    ResumeKeepsMirror(db, limit);
    MirrorsGive(db);
    MirrorsGive(Resume(db, limit).db);
    CompleteMeansEqual(db);
    CompleteMeansEqual(Resume(db, limit).db);
  }
}
