/**
 * What verification leaves behind: checkpoints at the last event of clean streams, marks and records of
 * broken ones.
 */
module IntegrityCheckpoints {
  import opened Common
  import opened Ledger
  import opened HashChain
  import opened IntegrityStreams
  import opened IntegrityTheorems

  // ---- what a verification reads ------------------------------------------------------------

  /**
   * A full verification reads the whole stream from no anchor; an incremental one reads exactly the events
   * past the checkpoint, anchored at its hash.
   */
  lemma ReadsExactly(s: Integrity, k: StreamKey, mode: Mode)
    ensures var o := VerifyOne(s, k, mode);
            && o.key == k && o.broken == FirstBroken(o.events, o.anchor)
            && o.events == Stream(s.ledger.log, k, if mode == INCREMENTAL && k in s.checkpoints
                                                   then s.checkpoints[k].position else 0)
            && o.anchor == if mode == INCREMENTAL && k in s.checkpoints then s.checkpoints[k].hash else None
  {}

  // ---- checkpoints stand at events ----------------------------------------------------------

  /** The checkpoint names the last event up to its position. */
  ghost predicate MarksEvent(log: seq<EngineEvent>, k: StreamKey, c: Checkpoint) {
    var events := Upto(log, k, c.position);
    && |events| > 0 && events[|events| - 1].position == c.position
    && events[|events| - 1].material.eventId == c.eventId
  }

  ghost predicate Marked(s: Integrity) {
    Trusted(s) && forall k :: k in s.checkpoints ==> MarksEvent(s.ledger.log, k, s.checkpoints[k])
  }

  /** The checkpoint of a stream verified to its end: position and id of its last event, and the tip. */
  ghost predicate AtEnd(log: seq<EngineEvent>, k: StreamKey, c: Checkpoint) {
    var all := Stream(log, k, 0);
    && |all| > 0 && c.position == all[|all| - 1].position && c.eventId == all[|all| - 1].material.eventId
    && c.hash == Tip(all, None)
  }

  lemma AtEndMarks(s: Integrity, k: StreamKey, c: Checkpoint)
    requires Trusted(s) && AtEnd(s.ledger.log, k, c)
    ensures MarksEvent(s.ledger.log, k, c)
  {
    UptoTheLast(s.ledger.log, s.ledger.next, k, 0);
  }

  /** A clean outcome with events advances its checkpoint to the end of the stream. */
  lemma AdvanceIsAtEnd(s: Integrity, k: StreamKey, mode: Mode)
    requires Trusted(s) && VerifyOne(s, k, mode).broken.None? && |VerifyOne(s, k, mode).events| > 0
    ensures AtEnd(s.ledger.log, k, AdvanceCheckpoint(s.checkpoints, VerifyOne(s, k, mode))[k])
  {
    hide FirstBroken, Tip, Passes, VerifyOne, AdvanceCheckpoint, Stream, Upto, Ordered;
    var o := VerifyOne(s, k, mode);
    ReadsExactly(s, k, mode);
    AdvanceIsTrusted(s, k, mode);
    AdvanceSets(s.checkpoints, o);
    SameEnd(s.ledger.log, s.ledger.next, k, if mode == INCREMENTAL && k in s.checkpoints then s.checkpoints[k].position
                                            else 0);
  }

  /** A stream and what it holds past a position end with the same event. */
  lemma SameEnd(log: seq<EngineEvent>, next: nat, k: StreamKey, from: nat)
    requires Ordered(log, next) && |Stream(log, k, from)| > 0
    ensures var all, late := Stream(log, k, 0), Stream(log, k, from);
            && |all| > 0 && all[|all| - 1] == late[|late| - 1] && Upto(log, k, all[|all| - 1].position) == all
  {
    hide Stream, Upto, Ordered;
    UptoTheLast(log, next, k, from);
    StreamSplits(log, next, k, from);
    assert Stream(log, k, 0) == Upto(log, k, from) + Stream(log, k, from);
  }

  lemma AdvanceSets(checkpoints: map<StreamKey, Checkpoint>, o: StreamOutcome)
    requires |o.events| > 0
    ensures var after, last := AdvanceCheckpoint(checkpoints, o), o.events[|o.events| - 1];
            o.key in after && after[o.key].position == last.position && after[o.key].eventId == last.material.eventId
  {}

  /** A clean outcome without events leaves a checkpoint that already stands at the end. */
  lemma NothingNewIsAtEnd(s: Integrity, k: StreamKey, mode: Mode)
    requires Marked(s) && |VerifyOne(s, k, mode).events| == 0 && |Stream(s.ledger.log, k, 0)| > 0
    ensures k in s.checkpoints && AtEnd(s.ledger.log, k, s.checkpoints[k])
  {
    hide FirstBroken, Tip, Passes, VerifyOne, Stream, Upto, Ordered;
    ReadsExactly(s, k, mode);
    var from := if mode == INCREMENTAL && k in s.checkpoints then s.checkpoints[k].position else 0;
    StreamSplits(s.ledger.log, s.ledger.next, k, from);
    assert Upto(s.ledger.log, k, from) + [] == Upto(s.ledger.log, k, from);
  }

  // ---- the checkpoint loop ------------------------------------------------------------------

  /** One turn of the loop. */
  lemma LoopStep(checkpoints: map<StreamKey, Checkpoint>, outcomes: seq<StreamOutcome>, n: nat)
    requires n < |outcomes|
    ensures AdvanceClean(checkpoints, outcomes[..n + 1]) ==
            if outcomes[n].broken.None? then AdvanceCheckpoint(AdvanceClean(checkpoints, outcomes[..n]), outcomes[n])
            else AdvanceClean(checkpoints, outcomes[..n])
  {
    assert outcomes[..n + 1][..n] == outcomes[..n];
  }

  /** A clean outcome with events sets the checkpoint of its stream, whatever it was, and no other. */
  lemma AdvancesOnly(checkpoints: map<StreamKey, Checkpoint>, o: StreamOutcome, j: StreamKey)
    ensures var after := AdvanceCheckpoint(checkpoints, o);
            if |o.events| == 0 then after == checkpoints
            else && o.key in after && after[o.key] == AdvanceCheckpoint(map[], o)[o.key]
                 && (j != o.key ==> (j in after <==> j in checkpoints))
                 && (j != o.key && j in after ==> after[j] == checkpoints[j])
  {}

  /** Checkpoints of other streams stay; the clean outcome of a stream decides its own. */
  lemma {:induction false} LoopAdvances(s: Integrity, keys: seq<StreamKey>, mode: Mode, n: nat, k: StreamKey)
    requires n <= |keys| && forall i, j :: 0 <= i < j < |keys| ==> keys[i] != keys[j]
    ensures var o, after := VerifyOne(s, k, mode), AdvanceClean(s.checkpoints, Outcomes(s, keys, mode)[..n]);
            if k in keys[..n] && o.broken.None? && |o.events| > 0 then
              k in after && k in AdvanceCheckpoint(map[], o) && after[k] == AdvanceCheckpoint(map[], o)[k]
            else
              (k in after <==> k in s.checkpoints) && (k in after ==> after[k] == s.checkpoints[k])
  {
    hide VerifyOne, AdvanceCheckpoint;
    if n > 0 {
      hide AdvanceClean;
      LoopAdvances(s, keys, mode, n - 1, k);
      var outcomes := Outcomes(s, keys, mode);
      LoopStep(s.checkpoints, outcomes, n - 1);
      assert keys[..n] == keys[..n - 1] + [keys[n - 1]];
      assert k == keys[n - 1] ==> k !in keys[..n - 1];
      ReadsExactly(s, keys[n - 1], mode);
      AdvancesOnly(AdvanceClean(s.checkpoints, outcomes[..n - 1]), outcomes[n - 1], k);
      AdvancesOnly(map[], outcomes[n - 1], k);
    }
  }

  /**
   * A committed verification leaves every stream that passes with a checkpoint at its last event, as it
   * stood before the pass, whose hash is the tip of the whole stream; a stream that does not pass keeps the
   * checkpoint it had, or has none.
   */
  lemma PassLeavesCheckpoints(s: Integrity, keys: seq<StreamKey>, mode: Mode, ids: nat -> string, now: Time,
                              k: StreamKey)
    requires Marked(s) && ListsStreams(s.ledger.log, keys) && VerifyAll(s, keys, mode, ids, now).Ok?
    ensures var before, after := s.checkpoints, VerifyAll(s, keys, mode, ids, now).value.checkpoints;
            if k in keys && Passes(Stream(s.ledger.log, k, 0), None) then
              k in after && AtEnd(s.ledger.log, k, after[k])
            else
              (k in after <==> k in before) && (k in after ==> after[k] == before[k])
  {
    hide FirstBroken, Tip, AtEnd, MarksEvent, QuarantineBroken, AppendOne;
    var outcomes := Outcomes(s, keys, mode);
    LoopAdvances(s, keys, mode, |keys|, k);
    assert outcomes[..|keys|] == outcomes && keys[..|keys|] == keys;
    IncrementalIsFull(s, k);
    ReadsExactly(s, k, FULL);
    if k in keys {
      var e :| e in s.ledger.log && e.Key() == k;
      assert e.position > 0 && e in Stream(s.ledger.log, k, 0);
      if Passes(Stream(s.ledger.log, k, 0), None) {
        ReadsExactly(s, k, mode);
        AdvancesOnly(s.checkpoints, VerifyOne(s, k, mode), k);
        if |VerifyOne(s, k, mode).events| > 0 { AdvanceIsAtEnd(s, k, mode); } else { NothingNewIsAtEnd(s, k, mode); }
      }
    }
  }

  /**
   * The next incremental verification of a stream that passed reads exactly what was recorded on it since:
   * here, during the pass itself.
   */
  lemma NextPassReadsOnlyNew(s: Integrity, keys: seq<StreamKey>, mode: Mode, ids: nat -> string, now: Time,
                             k: StreamKey)
    requires Marked(s) && ListsStreams(s.ledger.log, keys) && VerifyAll(s, keys, mode, ids, now).Ok?
    requires k in keys && Passes(Stream(s.ledger.log, k, 0), None)
    ensures var t := VerifyAll(s, keys, mode, ids, now).value;
            Stream(t.ledger.log, k, 0) == Stream(s.ledger.log, k, 0) + VerifyOne(t, k, INCREMENTAL).events
  {
    hide FirstBroken, Tip, QuarantineBroken, AppendOne;
    var t := VerifyAll(s, keys, mode, ids, now).value;
    PassLeavesCheckpoints(s, keys, mode, ids, now, k);
    PassGrows(s, keys, mode, ids, now);
    var at := t.checkpoints[k].position;
    ReadsExactly(t, k, INCREMENTAL);
    StreamSplits(t.ledger.log, t.ledger.next, k, at);
    var all := Stream(s.ledger.log, k, 0);
    assert all[|all| - 1] in s.ledger.log;
    UptoTheLast(s.ledger.log, s.ledger.next, k, 0);
    GrowthKeepsPrefixes(s.ledger, t.ledger, k, at);
  }

  lemma PassGrows(s: Integrity, keys: seq<StreamKey>, mode: Mode, ids: nat -> string, now: Time)
    requires Trusted(s) && VerifyAll(s, keys, mode, ids, now).Ok?
    ensures Grown(s.ledger, VerifyAll(s, keys, mode, ids, now).value.ledger)
  {
    hide LatestVersion, HasEventId, KeyTaken;
    var d := SystemDraft(s.ledger, IntegrityCheckCompleted, "IntegrityCheck", "integrity_" + ids(0), "", ids(1), ids(0),
                         now);
    AppendGrows(s.ledger, d);
    QuarantineGrows(AppendOne(s.ledger, d).value, Outcomes(s, keys, mode), ids, now);
  }

  /**
   * Verifying one stream, or releasing it, leaves it with a checkpoint at its last event when it passes;
   * an empty stream and every other stream keep the checkpoint they had. A stream that does not pass
   * changes nothing.
   */
  lemma SinglePassLeavesCheckpoint(s: Integrity, k: StreamKey, id: string, now: Time, scopes: set<string>, j: StreamKey)
    requires Trusted(s)
    ensures var r := VerifyStream(s, k, id, now);
            r.Ok? ==> SinglePass(s, k, r.value, j) && (!Passes(Stream(s.ledger.log, k, 0), None) ==> r.value == s)
    ensures var r := Unquarantine(s, k, scopes, id, now);
            r.Ok? ==> SinglePass(s, k, r.value, j) && Passes(Stream(s.ledger.log, k, 0), None)
  {
    hide FirstBroken, Tip, AppendOne, AtEnd, AdvanceCheckpoint;
    ReadsExactly(s, k, FULL);
    AdvancesOnly(s.checkpoints, VerifyOne(s, k, FULL), j);
    if VerifyOne(s, k, FULL).broken.None? && |Stream(s.ledger.log, k, 0)| > 0 { AdvanceIsAtEnd(s, k, FULL); }
  }

  ghost predicate SinglePass(s: Integrity, k: StreamKey, t: Integrity, j: StreamKey) {
    if j == k && Passes(Stream(s.ledger.log, k, 0), None) && |Stream(s.ledger.log, k, 0)| > 0 then
      k in t.checkpoints && AtEnd(s.ledger.log, k, t.checkpoints[k])
    else
      (j in t.checkpoints <==> j in s.checkpoints) && (j in t.checkpoints ==> t.checkpoints[j] == s.checkpoints[j])
  }

  // ---- over runs ----------------------------------------------------------------------------

  lemma StepKeepsMarks(s: Integrity, step: Step, t: Integrity)
    requires Marked(s) && Next(s, step, t)
    ensures Marked(t)
  {
    hide FirstBroken, Tip, AppendOne, AtEnd, MarksEvent, VerifyAll, VerifyStream, Unquarantine;
    StepKeepsTrust(s, step, t);
    forall k | k in t.checkpoints ensures MarksEvent(t.ledger.log, k, t.checkpoints[k]) {
      match step
      case Append(d) =>
        AppendGrows(s.ledger, d);
        MarksLater(s, t, k);
      case Verify(keys, mode, ids, now) =>
        if t != s {
          PassLeavesCheckpoints(s, keys, mode, ids, now, k);
          PassGrows(s, keys, mode, ids, now);
          MarksLater(s, t, k);
        }
      case VerifySingle(j, id, now) =>
        if t != s {
          SinglePassLeavesCheckpoint(s, j, id, now, {}, k);
          SingleGrows(s, j, id, now, {});
          MarksLater(s, t, k);
        }
      case Release(j, scopes, id, now) =>
        if t != s {
          SinglePassLeavesCheckpoint(s, j, id, now, scopes, k);
          SingleGrows(s, j, id, now, scopes);
          MarksLater(s, t, k);
        }
      case Alter(log) => SameMark(s.ledger.log, log, k, s.checkpoints[k]);
      case SkipPositions(next) =>
    }
  }

  lemma SingleGrows(s: Integrity, k: StreamKey, id: string, now: Time, scopes: set<string>)
    requires Trusted(s)
    ensures VerifyStream(s, k, id, now).Ok? ==> Grown(s.ledger, VerifyStream(s, k, id, now).value.ledger)
    ensures Unquarantine(s, k, scopes, id, now).Ok? ==>
              Grown(s.ledger, Unquarantine(s, k, scopes, id, now).value.ledger)
  {
    hide LatestVersion, HasEventId, KeyTaken, FirstBroken, Stream;
    GrownSelf(s.ledger);
    AppendGrows(s.ledger,
                SystemDraft(s.ledger, IntegrityStreamVerified, "IntegrityStream", StreamName(k), "", id, id, now));
    var l := ReleaseStream(s.ledger, k);
    AppendGrows(l, SystemDraft(l, IntegrityStreamReleased, "IntegrityStream", StreamName(k), "", id, id, now));
  }

  lemma SameMark(log: seq<EngineEvent>, more: seq<EngineEvent>, k: StreamKey, c: Checkpoint)
    requires MarksEvent(log, k, c) && Upto(more, k, c.position) == Upto(log, k, c.position)
    ensures MarksEvent(more, k, c)
  {}

  /** A checkpoint at the end of the stream, or one kept, marks its event in the longer log. */
  lemma MarksLater(s: Integrity, t: Integrity, k: StreamKey)
    requires Marked(s) && Grown(s.ledger, t.ledger) && k in t.checkpoints
    requires AtEnd(s.ledger.log, k, t.checkpoints[k]) || (k in s.checkpoints && s.checkpoints[k] == t.checkpoints[k])
    ensures MarksEvent(t.ledger.log, k, t.checkpoints[k])
  {
    var c := t.checkpoints[k];
    if AtEnd(s.ledger.log, k, c) {
      AtEndMarks(s, k, c);
      LiesBelow(s, k);
    }
    GrowthKeepsPrefixes(s.ledger, t.ledger, k, c.position);
    SameMark(s.ledger.log, t.ledger.log, k, c);
  }

  lemma LiesBelow(s: Integrity, k: StreamKey)
    requires Trusted(s) && |Stream(s.ledger.log, k, 0)| > 0
    ensures var all := Stream(s.ledger.log, k, 0); all[|all| - 1].position < s.ledger.next
  {
    UptoTheLast(s.ledger.log, s.ledger.next, k, 0);
  }

  /** In every run each checkpoint names the last event of its verified prefix, so the laws above apply throughout. */
  lemma {:induction false} MarkedThroughout(trace: seq<Integrity>, steps: seq<Step>, i: nat)
    requires Run(trace, steps) && i < |trace|
    requires trace[0].checkpoints == map[] && trace[0].ledger.next > 0
             && Ordered(trace[0].ledger.log, trace[0].ledger.next)
    ensures Marked(trace[i])
  {
    if i > 0 {
      hide Next, Marked;
      MarkedThroughout(trace, steps, i - 1);
      assert Next(trace[i - 1], steps[i - 1], trace[i]);
      StepKeepsMarks(trace[i - 1], steps[i - 1], trace[i]);
    }
  }

  // ---- marks and records of broken streams --------------------------------------------------

  lemma AppendKeepsMark(l: Ledger, d: Draft, k: StreamKey)
    requires AppendOne(l, d).Ok?
    ensures HeadOf(AppendOne(l, d).value, k).brokenEventId == HeadOf(l, k).brokenEventId
    ensures HeadOf(AppendOne(l, d).value, k).status == HeadOf(l, k).status
  {
    hide LatestVersion, HasEventId, KeyTaken;
  }

  /** An event the engine records in its own stream about an aggregate. */
  predicate Names(e: EngineEvent, t: EventType, aggregateType: string, aggregateId: string) {
    && e.Key() == StreamKey("tnt_system", "usr_system", "app_system") && e.material.eventType == t
    && e.material.aggregateType == aggregateType && e.material.aggregateId == aggregateId
    && e.material.actor == Actor(SYSTEM, "engine-system") && e.material.domainPack == "core"
    && e.material.schemaVersion == "1.0" && e.idempotencyKey == None
  }

  /** A break is recorded by the violation of the event and the quarantine of the stream, side by side. */
  ghost predicate BreakRecorded(log: seq<EngineEvent>, from: nat, k: StreamKey, broken: string) {
    exists i ::
      && from <= i < |log| - 1
      && Names(log[i], IntegrityViolationDetected, "IntegrityCheck", "integrity_violation_" + broken)
      && Names(log[i + 1], IntegrityStreamQuarantined, "IntegrityStream",
               "stream_" + k.tenantId + "_" + k.ownerId + "_" + k.applicationId)
  }

  /** From one ledger to a later one a stream is quarantined for its break, or its head keeps status and mark. */
  ghost predicate BrokenIs(l: Ledger, r: Ledger, k: StreamKey, broken: Option<string>) {
    && l.log <= r.log
    && match broken
       case Some(id) =>
         && HeadOf(r, k).status == QUARANTINED && HeadOf(r, k).brokenEventId == broken
         && BreakRecorded(r.log, |l.log|, k, id)
       case None =>
         && HeadOf(r, k).status == HeadOf(l, k).status && HeadOf(r, k).brokenEventId == HeadOf(l, k).brokenEventId
  }

  lemma OneQuarantineRecords(l: Ledger, o: StreamOutcome, ids: nat -> string, n: nat, now: Time, k: StreamKey)
    requires o.broken.Some? && Quarantine(l, o, ids, n, now).Ok?
    ensures BrokenIs(l, Quarantine(l, o, ids, n, now).value, k, if k == o.key then o.broken else None)
  {
    hide LatestVersion, HasEventId, KeyTaken;
    var marked := QuarantineStream(l, o.key, o.broken.value);
    var d := SystemDraft(marked, IntegrityViolationDetected, "IntegrityCheck", "integrity_violation_" + o.broken.value,
                         "", ids(n), ids(0), now);
    var noted := AppendOne(marked, d).value;
    var e := SystemDraft(noted, IntegrityStreamQuarantined, "IntegrityStream", StreamName(o.key), "", ids(n + 1),
                         ids(0), now);
    AppendKeepsMark(marked, d, k);
    AppendKeepsMark(noted, e, k);
    var r := AppendOne(noted, e).value;
    assert r.log[|l.log|] == Persist(marked, d) && r.log[|l.log| + 1] == Persist(noted, e);
  }

  lemma RecordedLater(log: seq<EngineEvent>, from: nat, more: seq<EngineEvent>, earlier: nat, k: StreamKey,
                      broken: string)
    requires BreakRecorded(log, from, k, broken) && log <= more && earlier <= from
    ensures BreakRecorded(more, earlier, k, broken)
  {
    hide Names;
    var i :| && from <= i < |log| - 1
             && Names(log[i], IntegrityViolationDetected, "IntegrityCheck", "integrity_violation_" + broken)
             && Names(log[i + 1], IntegrityStreamQuarantined, "IntegrityStream",
                      "stream_" + k.tenantId + "_" + k.ownerId + "_" + k.applicationId);
    assert more[i] == log[i] && more[i + 1] == log[i + 1];
  }

  /** One turn of the quarantine loop. */
  lemma QuarantineStep(l: Ledger, outcomes: seq<StreamOutcome>, n: nat, ids: nat -> string, now: Time)
    requires n < |outcomes| && QuarantineBroken(l, outcomes[..n + 1], ids, now).Ok?
    ensures QuarantineBroken(l, outcomes[..n], ids, now).Ok?
    ensures QuarantineBroken(l, outcomes[..n + 1], ids, now) ==
            if outcomes[n].broken.None? then QuarantineBroken(l, outcomes[..n], ids, now)
            else Quarantine(QuarantineBroken(l, outcomes[..n], ids, now).value, outcomes[n], ids, 2 * n + 2, now)
  {
    hide Quarantine;
    assert outcomes[..n + 1][..n] == outcomes[..n];
  }

  lemma BrokenIsThen(l: Ledger, m: Ledger, r: Ledger, k: StreamKey, first: Option<string>, second: Option<string>)
    requires BrokenIs(l, m, k, first) && BrokenIs(m, r, k, second)
    ensures BrokenIs(l, r, k, if second.Some? then second else first)
  {
    hide BreakRecorded, HeadOf;
    if second.Some? {
      RecordedLater(r.log, |m.log|, r.log, |l.log|, k, second.value);
    } else if first.Some? {
      RecordedLater(m.log, |l.log|, r.log, |l.log|, k, first.value);
    }
  }

  lemma {:induction false} LoopRecords(s: Integrity, l: Ledger, keys: seq<StreamKey>, mode: Mode, n: nat,
                                       ids: nat -> string, now: Time, k: StreamKey)
    requires n <= |keys| && forall i, j :: 0 <= i < j < |keys| ==> keys[i] != keys[j]
    requires QuarantineBroken(l, Outcomes(s, keys, mode)[..n], ids, now).Ok?
    ensures BrokenIs(l, QuarantineBroken(l, Outcomes(s, keys, mode)[..n], ids, now).value, k,
                     if k in keys[..n] then VerifyOne(s, k, mode).broken else None)
  {
    hide VerifyOne, Quarantine, BrokenIs;
    if n == 0 {
      assert keys[..0] == [] && Outcomes(s, keys, mode)[..0] == [];
      NothingBroken(l, k);
      return;
    }
    var outcomes := Outcomes(s, keys, mode);
    QuarantineStep(l, outcomes, n - 1, ids, now);
    hide QuarantineBroken;
    LoopRecords(s, l, keys, mode, n - 1, ids, now, k);
    assert keys[..n] == keys[..n - 1] + [keys[n - 1]];
    ReadsExactly(s, keys[n - 1], mode);
    var o, mid := outcomes[n - 1], QuarantineBroken(l, outcomes[..n - 1], ids, now).value;
    if o.broken.Some? {
      OneQuarantineRecords(mid, o, ids, 2 * (n - 1) + 2, now, k);
      BrokenIsThen(l, mid, QuarantineBroken(l, outcomes[..n], ids, now).value, k,
                   if k in keys[..n - 1] then VerifyOne(s, k, mode).broken else None,
                   if k == o.key then o.broken else None);
    }
  }

  lemma NothingBroken(l: Ledger, k: StreamKey)
    ensures BrokenIs(l, l, k, None)
  {}

  /**
   * A committed verification records its completion first. Every stream that does not pass ends up
   * quarantined, marked with its first broken event, and recorded by a violation and a quarantine event;
   * every other stream keeps its status and mark.
   */
  lemma PassRecordsBreaks(s: Integrity, keys: seq<StreamKey>, mode: Mode, ids: nat -> string, now: Time, k: StreamKey)
    requires Trusted(s) && ListsStreams(s.ledger.log, keys) && VerifyAll(s, keys, mode, ids, now).Ok?
    ensures var t, n := VerifyAll(s, keys, mode, ids, now).value, |s.ledger.log|;
            && s.ledger.log < t.ledger.log
            && Names(t.ledger.log[n], IntegrityCheckCompleted, "IntegrityCheck", "integrity_" + ids(0))
            && var broken := FirstBroken(Stream(s.ledger.log, k, 0), None);
               if k in keys && broken.Some? then
                 && HeadOf(t.ledger, k).status == QUARANTINED && HeadOf(t.ledger, k).brokenEventId == broken
                 && BreakRecorded(t.ledger.log, n, k, broken.value)
               else
                 && HeadOf(t.ledger, k).status == HeadOf(s.ledger, k).status
                 && HeadOf(t.ledger, k).brokenEventId == HeadOf(s.ledger, k).brokenEventId
  {
    hide FirstBroken, Tip, QuarantineBroken, BreakRecorded, LatestVersion, HasEventId, KeyTaken, HeadOf, AdvanceClean,
         VerifyOne;
    var outcomes := Outcomes(s, keys, mode);
    var d := SystemDraft(s.ledger, IntegrityCheckCompleted, "IntegrityCheck", "integrity_" + ids(0), "", ids(1), ids(0),
                         now);
    var completed := AppendOne(s.ledger, d).value;
    assert outcomes[..|keys|] == outcomes && keys[..|keys|] == keys;
    LoopRecords(s, completed, keys, mode, |keys|, ids, now, k);
    AppendKeepsMark(s.ledger, d, k);
    IncrementalIsFull(s, k);
    ReadsExactly(s, k, FULL);
    var t := VerifyAll(s, keys, mode, ids, now).value;
    assert completed.log[|s.ledger.log|] == Persist(s.ledger, d);
    if k in keys && VerifyOne(s, k, mode).broken.Some? {
      RecordedLater(t.ledger.log, |completed.log|, t.ledger.log, |s.ledger.log|, k, VerifyOne(s, k, mode).broken.value);
    }
  }

  /**
   * Verifying one stream that passes records that; releasing one records it and clears status and mark of
   * that stream only.
   */
  lemma SinglePassRecords(s: Integrity, k: StreamKey, id: string, now: Time, scopes: set<string>, j: StreamKey)
    ensures var r, n := VerifyStream(s, k, id, now), |s.ledger.log|;
            r.Ok? && Passes(Stream(s.ledger.log, k, 0), None) ==>
              && |r.value.ledger.log| == n + 1 && s.ledger.log < r.value.ledger.log
              && Names(r.value.ledger.log[n], IntegrityStreamVerified, "IntegrityStream",
                       "stream_" + k.tenantId + "_" + k.ownerId + "_" + k.applicationId)
              && HeadOf(r.value.ledger, j).status == HeadOf(s.ledger, j).status
              && HeadOf(r.value.ledger, j).brokenEventId == HeadOf(s.ledger, j).brokenEventId
    ensures var r, n := Unquarantine(s, k, scopes, id, now), |s.ledger.log|;
            r.Ok? ==>
              && |r.value.ledger.log| == n + 1 && s.ledger.log < r.value.ledger.log
              && Names(r.value.ledger.log[n], IntegrityStreamReleased, "IntegrityStream",
                       "stream_" + k.tenantId + "_" + k.ownerId + "_" + k.applicationId)
              && HeadOf(r.value.ledger, j).status == (if j == k then ACTIVE else HeadOf(s.ledger, j).status)
              && HeadOf(r.value.ledger, j).brokenEventId == (if j == k then None else HeadOf(s.ledger, j).brokenEventId)
  {
    hide FirstBroken, Tip, LatestVersion, HasEventId, KeyTaken, AdvanceCheckpoint, AppendOne;
    var d := SystemDraft(s.ledger, IntegrityStreamVerified, "IntegrityStream", StreamName(k), "", id, id, now);
    if AppendOne(s.ledger, d).Ok? {
      AppendKeepsMark(s.ledger, d, j);
      assert AppendOne(s.ledger, d).value.log[|s.ledger.log|] == Persist(s.ledger, d);
    }
    var l := ReleaseStream(s.ledger, k);
    var e := SystemDraft(l, IntegrityStreamReleased, "IntegrityStream", StreamName(k), "", id, id, now);
    if AppendOne(l, e).Ok? {
      AppendKeepsMark(l, e, j);
      assert AppendOne(l, e).value.log[|s.ledger.log|] == Persist(l, e);
    }
  }

  // ---- heads --------------------------------------------------------------------------------

  /** The head counts the events of its stream and names the last one. */
  ghost predicate HeadTracks(l: Ledger, k: StreamKey) {
    var all, h := Stream(l.log, k, 0), HeadOf(l, k);
    && l.next > 0 && h.version == |all|
    && (|all| == 0 ==> h.lastPosition == 0 && h.lastEventId == None)
    && (|all| > 0 ==> && h.lastPosition == all[|all| - 1].position
                      && h.lastEventId == Some(all[|all| - 1].material.eventId))
  }

  lemma AppendTracks(l: Ledger, d: Draft, k: StreamKey)
    requires HeadTracks(l, k) && AppendOne(l, d).Ok?
    ensures HeadTracks(AppendOne(l, d).value, k)
  {
    hide LatestVersion, HasEventId, KeyTaken;
    StreamOfAppend(l.log, Persist(l, d), k, 0);
  }

  lemma SameTracks(l: Ledger, m: Ledger, k: StreamKey)
    requires HeadTracks(l, k) && m.log == l.log && m.next > 0
    requires HeadOf(m, k).version == HeadOf(l, k).version && HeadOf(m, k).lastPosition == HeadOf(l, k).lastPosition
    requires HeadOf(m, k).lastEventId == HeadOf(l, k).lastEventId
    ensures HeadTracks(m, k)
  {}

  lemma QuarantiningTracks(l: Ledger, outcomes: seq<StreamOutcome>, ids: nat -> string, now: Time, k: StreamKey)
    requires HeadTracks(l, k) && QuarantineBroken(l, outcomes, ids, now).Ok?
    ensures HeadTracks(QuarantineBroken(l, outcomes, ids, now).value, k)
  {
    hide HeadTracks, LatestVersion, HasEventId, KeyTaken, Quarantine, AppendOne;
    if |outcomes| == 0 { return; }
    var n, o := |outcomes| - 1, outcomes[|outcomes| - 1];
    QuarantiningTracks(l, outcomes[..n], ids, now, k);
    if o.broken.Some? {
      OneQuarantineTracks(QuarantineBroken(l, outcomes[..n], ids, now).value, o, ids, 2 * n + 2, now, k);
    }
  }

  lemma OneQuarantineTracks(l: Ledger, o: StreamOutcome, ids: nat -> string, n: nat, now: Time, k: StreamKey)
    requires HeadTracks(l, k) && o.broken.Some? && Quarantine(l, o, ids, n, now).Ok?
    ensures HeadTracks(Quarantine(l, o, ids, n, now).value, k)
  {
    hide HeadTracks, AppendOne, SystemDraft, StreamName;
    var marked := QuarantineStream(l, o.key, o.broken.value);
    var d := SystemDraft(marked, IntegrityViolationDetected, "IntegrityCheck", "integrity_violation_" + o.broken.value,
                         "", ids(n), ids(0), now);
    SameTracks(l, marked, k) by { assert l.next > 0 by { NextIsPositive(l, k); } }
    AppendTracks(marked, d, k);
    var noted := AppendOne(marked, d).value;
    AppendTracks(noted, SystemDraft(noted, IntegrityStreamQuarantined, "IntegrityStream", StreamName(o.key), "",
                                    ids(n + 1), ids(0), now), k);
  }

  lemma NextIsPositive(l: Ledger, k: StreamKey)
    requires HeadTracks(l, k)
    ensures l.next > 0
  {}

  lemma StepTracks(s: Integrity, step: Step, t: Integrity, k: StreamKey)
    requires Next(s, step, t) && HeadTracks(s.ledger, k) && !step.Alter?
    ensures HeadTracks(t.ledger, k)
  {
    hide HeadTracks, AppendOne, QuarantineBroken, Outcomes, AdvanceClean, AdvanceCheckpoint, VerifyOne, SystemDraft;
    NextIsPositive(s.ledger, k);
    match step
    case Append(d) =>
      if t != s { AppendTracks(s.ledger, d, k); }
    case Verify(keys, mode, ids, now) =>
      if t != s {
        var d := SystemDraft(s.ledger, IntegrityCheckCompleted, "IntegrityCheck", "integrity_" + ids(0), "", ids(1),
                             ids(0), now);
        AppendTracks(s.ledger, d, k);
        QuarantiningTracks(AppendOne(s.ledger, d).value, Outcomes(s, keys, mode), ids, now, k);
      }
    case VerifySingle(j, id, now) =>
      if t != s {
        AppendTracks(s.ledger, SystemDraft(s.ledger, IntegrityStreamVerified, "IntegrityStream", StreamName(j), "", id,
                                           id, now), k);
      }
    case Release(j, scopes, id, now) =>
      if t != s {
        var l := ReleaseStream(s.ledger, j);
        SameTracks(s.ledger, l, k);
        AppendTracks(l, SystemDraft(l, IntegrityStreamReleased, "IntegrityStream", StreamName(j), "", id, id, now), k);
      }
    case SkipPositions(next) => SameTracks(s.ledger, t.ledger, k);
  }

  /** From the empty log, as long as nothing is altered, every head counts its stream and names its last event. */
  lemma {:induction false} HeadsTrack(trace: seq<Integrity>, steps: seq<Step>, i: nat, k: StreamKey)
    requires Run(trace, steps) && i < |trace| && trace[0] == Integrity(EMPTY, map[])
    requires forall m :: 0 <= m < |steps| ==> !steps[m].Alter?
    ensures HeadTracks(trace[i].ledger, k)
  {
    if i > 0 {
      hide Next, HeadTracks;
      HeadsTrack(trace, steps, i - 1, k);
      assert Next(trace[i - 1], steps[i - 1], trace[i]);
      StepTracks(trace[i - 1], steps[i - 1], trace[i], k);
    }
  }
}
