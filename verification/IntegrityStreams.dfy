/**
 * Integrity verification of every stream: full or incremental from a checkpoint, quarantine on a
 * break, governed release. Each operation is one transaction from state to state.
 */
module IntegrityStreams {
  import opened Common
  import opened Ledger
  import opened HashChain

  datatype Checkpoint = Checkpoint(position: nat, eventId: string, hash: Option<Digest>)

  datatype Integrity = Integrity(ledger: Ledger, checkpoints: map<StreamKey, Checkpoint>)

  datatype Mode = FULL | INCREMENTAL

  datatype StreamOutcome = StreamOutcome(
    key: StreamKey, events: seq<EngineEvent>, anchor: Option<Digest>, broken: Option<string>)

  datatype Failure = StreamNotFound | ReleaseBlocked | Rejected(cause: AppendError)

  const ADMINISTER_ENGINE := "ADMINISTER_ENGINE"

  // ---- operations ---------------------------------------------------------------------------

  function StartOf(s: Integrity, k: StreamKey, mode: Mode): (Option<Digest>, nat) {
    if mode == INCREMENTAL && k in s.checkpoints
    then (s.checkpoints[k].hash, s.checkpoints[k].position)
    else (None, 0)
  }

  function VerifyOne(s: Integrity, k: StreamKey, mode: Mode): StreamOutcome {
    var (anchor, from) := StartOf(s, k, mode);
    var events := Stream(s.ledger.log, k, from);
    StreamOutcome(k, events, anchor, FirstBroken(events, anchor))
  }

  /** Truth of a stored hash: absent and empty are both false. */
  predicate Truthy(h: Option<Digest>) { h.Some? && h != Some(Text("")) }

  function AdvanceCheckpoint(checkpoints: map<StreamKey, Checkpoint>, o: StreamOutcome): map<StreamKey, Checkpoint> {
    if |o.events| == 0 then checkpoints
    else
      var last := o.events[|o.events| - 1];
      checkpoints[o.key := Checkpoint(last.position, last.material.eventId,
                                      if Truthy(last.hash) then last.hash else o.anchor)]
  }

  function AdvanceClean(checkpoints: map<StreamKey, Checkpoint>,
                        outcomes: seq<StreamOutcome>): map<StreamKey, Checkpoint>
  {
    if |outcomes| == 0 then checkpoints
    else
      var rest, last := AdvanceClean(checkpoints, outcomes[..|outcomes| - 1]), outcomes[|outcomes| - 1];
      if last.broken.None? then AdvanceCheckpoint(rest, last) else rest
  }

  function QuarantineStream(l: Ledger, k: StreamKey, broken: string): Ledger {
    l.(heads := l.heads[k := HeadOf(l, k).(status := QUARANTINED, brokenEventId := Some(broken))])
  }

  function ReleaseStream(l: Ledger, k: StreamKey): Ledger {
    if k in l.heads then l.(heads := l.heads[k := l.heads[k].(status := ACTIVE, brokenEventId := None)]) else l
  }

  function StreamName(k: StreamKey): string {
    "stream_" + k.tenantId + "_" + k.ownerId + "_" + k.applicationId
  }

  /** Quarantine one broken stream and record the violation and the quarantine. */
  function Quarantine(l: Ledger, o: StreamOutcome, ids: nat -> string, n: nat, now: Time): Result<Ledger, AppendError>
    requires o.broken.Some?
  {
    var marked := QuarantineStream(l, o.key, o.broken.value);
    var noted :- AppendOne(marked, SystemDraft(marked, IntegrityViolationDetected, "IntegrityCheck",
                                               "integrity_violation_" + o.broken.value, "", ids(n), ids(0), now));
    AppendOne(noted, SystemDraft(noted, IntegrityStreamQuarantined, "IntegrityStream", StreamName(o.key),
                                 "", ids(n + 1), ids(0), now))
  }

  function QuarantineBroken(l: Ledger, outcomes: seq<StreamOutcome>, ids: nat -> string,
                            now: Time): Result<Ledger, AppendError>
  {
    if |outcomes| == 0 then Ok(l)
    else
      var n, last := |outcomes| - 1, outcomes[|outcomes| - 1];
      var rest :- QuarantineBroken(l, outcomes[..n], ids, now);
      if last.broken.None? then Ok(rest) else Quarantine(rest, last, ids, 2 * n + 2, now)
  }

  function Outcomes(s: Integrity, keys: seq<StreamKey>, mode: Mode): seq<StreamOutcome> {
    seq(|keys|, i requires 0 <= i < |keys| => VerifyOne(s, keys[i], mode))
  }

  /** Verify every stream; `ids(0)` names the audit, `ids(1)` the completion event, the rest the quarantines. */
  function VerifyAll(s: Integrity, keys: seq<StreamKey>, mode: Mode, ids: nat -> string,
                     now: Time): Result<Integrity, Failure>
  {
    var outcomes := Outcomes(s, keys, mode);
    var checkpoints := AdvanceClean(s.checkpoints, outcomes);
    var completed := AppendOne(s.ledger, SystemDraft(s.ledger, IntegrityCheckCompleted, "IntegrityCheck",
                                                     "integrity_" + ids(0), "", ids(1), ids(0), now));
    if completed.Err? then Err(Rejected(completed.error))
    else
      var ledger := QuarantineBroken(completed.value, outcomes, ids, now);
      if ledger.Err? then Err(Rejected(ledger.error)) else Ok(Integrity(ledger.value, checkpoints))
  }

  function VerifyStream(s: Integrity, k: StreamKey, eventId: string, now: Time): Result<Integrity, Failure> {
    if k !in s.ledger.heads then Err(StreamNotFound)
    else
      var o := VerifyOne(s, k, FULL);
      if o.broken.Some? then Ok(s)
      else
        var ledger := AppendOne(s.ledger, SystemDraft(s.ledger, IntegrityStreamVerified, "IntegrityStream",
                                                      StreamName(k), "", eventId, eventId, now));
        if ledger.Err? then Err(Rejected(ledger.error))
        else Ok(Integrity(ledger.value, AdvanceCheckpoint(s.checkpoints, o)))
  }

  function Unquarantine(s: Integrity, k: StreamKey, scopes: set<string>, eventId: string,
                        now: Time): Result<Integrity, Failure>
  {
    if ADMINISTER_ENGINE !in scopes then Err(ReleaseBlocked)
    else if k !in s.ledger.heads then Err(StreamNotFound)
    else
      var o := VerifyOne(s, k, FULL);
      if o.broken.Some? then Err(ReleaseBlocked)
      else
        var released := ReleaseStream(s.ledger, k);
        var ledger := AppendOne(released, SystemDraft(released, IntegrityStreamReleased, "IntegrityStream",
                                                      StreamName(k), "", eventId, eventId, now));
        if ledger.Err? then Err(Rejected(ledger.error))
        else Ok(Integrity(ledger.value, AdvanceCheckpoint(s.checkpoints, o)))
  }

  // ---- runs ---------------------------------------------------------------------------------

  /** The events of a stream up to a position. */
  function Upto(log: seq<EngineEvent>, k: StreamKey, to: nat): seq<EngineEvent> {
    if |log| == 0 then []
    else
      var rest, e := Upto(log[..|log| - 1], k, to), log[|log| - 1];
      if e.Key() == k && e.position <= to then rest + [e] else rest
  }

  /** `keys` lists the streams that have events, each once. */
  ghost predicate ListsStreams(log: seq<EngineEvent>, keys: seq<StreamKey>) {
    && (forall i, j :: 0 <= i < j < |keys| ==> keys[i] != keys[j])
    && (forall k :: k in keys <==> exists e :: e in log && e.Key() == k)
  }

  datatype Step =
    | Append(draft: Draft)
    | Verify(keys: seq<StreamKey>, mode: Mode, ids: nat -> string, now: Time)
    | VerifySingle(key: StreamKey, id: string, now: Time)
    | Release(key: StreamKey, scopes: set<string>, id: string, now: Time)
    | Alter(log: seq<EngineEvent>)
    | SkipPositions(next: nat)

  /** An alteration behind the engine's back that leaves every checkpointed prefix as it was verified. */
  ghost predicate AltersPastCheckpoints(s: Integrity, log: seq<EngineEvent>) {
    && Ordered(log, s.ledger.next)
    && forall k :: k in s.checkpoints ==>
         Upto(log, k, s.checkpoints[k].position) == Upto(s.ledger.log, k, s.checkpoints[k].position)
  }

  /** One step; a transaction that fails leaves everything as it was. */
  ghost predicate Next(s: Integrity, step: Step, t: Integrity) {
    match step
    case Append(d) =>
      var r := AppendOne(s.ledger, d);
      t == if r.Ok? then s.(ledger := r.value) else s
    case Verify(keys, mode, ids, now) =>
      ListsStreams(s.ledger.log, keys) &&
      var r := VerifyAll(s, keys, mode, ids, now);
      t == if r.Ok? then r.value else s
    case VerifySingle(k, id, now) =>
      var r := VerifyStream(s, k, id, now);
      t == if r.Ok? then r.value else s
    case Release(k, scopes, id, now) =>
      var r := Unquarantine(s, k, scopes, id, now);
      t == if r.Ok? then r.value else s
    case Alter(log) => AltersPastCheckpoints(s, log) && t == s.(ledger := s.ledger.(log := log))
    case SkipPositions(next) => s.ledger.next <= next && t == s.(ledger := s.ledger.(next := next))
  }

  ghost predicate Run(trace: seq<Integrity>, steps: seq<Step>) {
    && |trace| == |steps| + 1
    && forall i :: 0 <= i < |steps| ==> Next(trace[i], steps[i], trace[i + 1])
  }

  // ---- logs as streams ----------------------------------------------------------------------

  lemma StreamOfAppend(log: seq<EngineEvent>, e: EngineEvent, k: StreamKey, from: nat)
    ensures Stream(log + [e], k, from) == Stream(log, k, from) + (if e.Key() == k && e.position > from then [e] else [])
    ensures forall to: nat :: to < e.position ==> Upto(log + [e], k, to) == Upto(log, k, to)
  {
    assert (log + [e])[..|log|] == log;
  }

  lemma {:induction false} StreamSplits(log: seq<EngineEvent>, next: nat, k: StreamKey, at: nat)
    requires Ordered(log, next)
    ensures Stream(log, k, 0) == Upto(log, k, at) + Stream(log, k, at)
  {
    hide Ordered;
    if |log| == 0 { return; }
    var init, e := log[..|log| - 1], log[|log| - 1];
    LastIsLatest(log, next);
    StreamSplits(init, next, k, at);
    if e.Key() == k && e.position <= at { NothingPast(init, k, at); }
  }

  lemma LastIsLatest(log: seq<EngineEvent>, next: nat)
    requires Ordered(log, next) && |log| > 0
    ensures Ordered(log[..|log| - 1], next) && 0 < log[|log| - 1].position < next
    ensures forall e :: e in log[..|log| - 1] ==> e.position < log[|log| - 1].position
  {}

  lemma NothingPast(log: seq<EngineEvent>, k: StreamKey, at: nat)
    requires forall e :: e in log && e.Key() == k ==> e.position <= at
    ensures Stream(log, k, at) == []
  {}

  /** Every event of a stream lies at or before its last one. */
  lemma {:induction false} UptoTheLast(log: seq<EngineEvent>, next: nat, k: StreamKey, from: nat)
    requires Ordered(log, next) && |Stream(log, k, from)| > 0
    ensures var events := Stream(log, k, from);
            var last := events[|events| - 1];
            Upto(log, k, last.position) == Stream(log, k, 0) && last.position < next
  {
    var events := Stream(log, k, from);
    var last := events[|events| - 1];
    assert last in log;
    StreamSplits(log, next, k, last.position);
    LastIsGreatest(log, next, k, from);
    forall e | e in log && e.Key() == k ensures e.position <= last.position {
      if e.position > from { assert e in events; } else { assert last in events; }
    }
    NothingPast(log, k, last.position);
  }

  lemma {:induction false} LastIsGreatest(log: seq<EngineEvent>, next: nat, k: StreamKey, from: nat)
    requires Ordered(log, next) && |Stream(log, k, from)| > 0
    ensures var events := Stream(log, k, from);
            forall e :: e in events ==> e.position <= events[|events| - 1].position
  {
    hide Ordered;
    var init, e := log[..|log| - 1], log[|log| - 1];
    LastIsLatest(log, next);
    if e.Key() == k && e.position > from {
      assert forall x :: x in Stream(init, k, from) ==> x in init;
    } else {
      LastIsGreatest(init, next, k, from);
    }
  }
}
