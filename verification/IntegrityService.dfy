/**
 * The verification service itself: each method is one transaction over the engine's tables, worked
 * out on copies and written back at the commit, so that a rejected transaction changes nothing.
 */
module IntegrityService {
  import opened Common
  import opened Ledger
  import opened HashChain
  import opened IntegrityStreams
  import opened IntegrityTheorems

  class IntegrityVerificationService {
    var ledger: Ledger
    var checkpoints: map<StreamKey, Checkpoint>

    constructor ()
      ensures State() == Integrity(EMPTY, map[])
    {
      ledger, checkpoints := EMPTY, map[];
    }

    function State(): Integrity
      reads this
    {
      Integrity(ledger, checkpoints)
    }

    method CheckStream(k: StreamKey, mode: Mode) returns (o: StreamOutcome)
      ensures o == VerifyOne(State(), k, mode)
    {
      var anchor: Option<Digest>, from: nat := None, 0;
      if mode == INCREMENTAL && k in checkpoints {
        anchor, from := checkpoints[k].hash, checkpoints[k].position;
      }
      var events := Stream(ledger.log, k, from);
      var ok, broken := VerifyChain(events, anchor);
      o := StreamOutcome(k, events, anchor, broken);
    }

    method CheckStreams(keys: seq<StreamKey>, mode: Mode) returns (outcomes: seq<StreamOutcome>)
      ensures outcomes == Outcomes(State(), keys, mode)
    {
      outcomes := [];
      for i := 0 to |keys|
        invariant |outcomes| == i && forall j :: 0 <= j < i ==> outcomes[j] == VerifyOne(State(), keys[j], mode)
      {
        var o := CheckStream(keys[i], mode);
        outcomes := outcomes + [o];
      }
    }

    /** Checkpoints advance only for the streams that verified cleanly. */
    method AdvanceCheckpoints(outcomes: seq<StreamOutcome>) returns (advanced: map<StreamKey, Checkpoint>)
      ensures advanced == AdvanceClean(checkpoints, outcomes)
    {
      advanced := checkpoints;
      for i := 0 to |outcomes|
        invariant advanced == AdvanceClean(checkpoints, outcomes[..i])
      {
        assert outcomes[..i + 1][..i] == outcomes[..i];
        if outcomes[i].broken.None? { advanced := AdvanceCheckpoint(advanced, outcomes[i]); }
      }
      assert outcomes[..|outcomes|] == outcomes;
    }

    static method QuarantineViolations(l: Ledger, outcomes: seq<StreamOutcome>, ids: nat -> string, now: Time)
      returns (r: Result<Ledger, AppendError>)
      ensures r == QuarantineBroken(l, outcomes, ids, now)
    {
      hide Quarantine;
      var working := l;
      for i := 0 to |outcomes|
        invariant QuarantineBroken(l, outcomes[..i], ids, now) == Ok(working)
      {
        assert outcomes[..i + 1][..i] == outcomes[..i];
        if outcomes[i].broken.Some? {
          var quarantined := Quarantine(working, outcomes[i], ids, 2 * i + 2, now);
          if quarantined.Err? {
            RejectionStands(l, outcomes, i + 1, ids, now);
            return quarantined;
          }
          working := quarantined.value;
        }
      }
      assert outcomes[..|outcomes|] == outcomes;
      r := Ok(working);
    }

    /** Verify every stream, advance the clean checkpoints, quarantine the broken streams. */
    method Verify(keys: seq<StreamKey>, mode: Mode, ids: nat -> string, now: Time)
        returns (r: Result<seq<StreamOutcome>, Failure>)
      modifies this
      ensures r == if VerifyAll(old(State()), keys, mode, ids, now).Ok?
                   then Ok(Outcomes(old(State()), keys, mode))
                   else Err(VerifyAll(old(State()), keys, mode, ids, now).error)
      ensures State() == if r.Ok? then VerifyAll(old(State()), keys, mode, ids, now).value else old(State())
    {
      hide AppendOne, Outcomes, AdvanceClean, QuarantineBroken, SystemDraft;
      var outcomes := CheckStreams(keys, mode);
      var advanced := AdvanceCheckpoints(outcomes);
      var completed := AppendOne(ledger, SystemDraft(ledger, IntegrityCheckCompleted, "IntegrityCheck",
                                                     "integrity_" + ids(0), "", ids(1), ids(0), now));
      if completed.Err? { return Err(Rejected(completed.error)); }
      var quarantined := QuarantineViolations(completed.value, outcomes, ids, now);
      if quarantined.Err? { return Err(Rejected(quarantined.error)); }
      ledger, checkpoints := quarantined.value, advanced;
      r := Ok(outcomes);
    }

    /** Full verification of one stream; a break is reported, not quarantined. */
    method VerifySingle(k: StreamKey, eventId: string, now: Time) returns (r: Result<StreamOutcome, Failure>)
      modifies this
      ensures r == if VerifyStream(old(State()), k, eventId, now).Ok? then Ok(VerifyOne(old(State()), k, FULL))
                   else Err(VerifyStream(old(State()), k, eventId, now).error)
      ensures State() == if r.Ok? then VerifyStream(old(State()), k, eventId, now).value else old(State())
    {
      if k !in ledger.heads { return Err(StreamNotFound); }
      var o := CheckStream(k, FULL);
      if o.broken.None? {
        var recorded := AppendOne(ledger, SystemDraft(ledger, IntegrityStreamVerified, "IntegrityStream",
                                                      StreamName(k), "", eventId, eventId, now));
        if recorded.Err? { return Err(Rejected(recorded.error)); }
        ledger, checkpoints := recorded.value, AdvanceCheckpoint(checkpoints, o);
      }
      r := Ok(o);
    }

    /** Release a stream from quarantine after full verification. */
    method UnquarantineStream(k: StreamKey, scopes: set<string>, eventId: string, now: Time)
        returns (r: Result<StreamOutcome, Failure>)
      modifies this
      ensures r == if Unquarantine(old(State()), k, scopes, eventId, now).Ok? then Ok(VerifyOne(old(State()), k, FULL))
                   else Err(Unquarantine(old(State()), k, scopes, eventId, now).error)
      ensures State() == if r.Ok? then Unquarantine(old(State()), k, scopes, eventId, now).value else old(State())
    {
      if ADMINISTER_ENGINE !in scopes { return Err(ReleaseBlocked); }
      if k !in ledger.heads { return Err(StreamNotFound); }
      var o := CheckStream(k, FULL);
      if o.broken.Some? { return Err(ReleaseBlocked); }
      var released := ReleaseStream(ledger, k);
      var recorded := AppendOne(released, SystemDraft(released, IntegrityStreamReleased, "IntegrityStream",
                                                      StreamName(k), "", eventId, eventId, now));
      if recorded.Err? { return Err(Rejected(recorded.error)); }
      ledger, checkpoints := recorded.value, AdvanceCheckpoint(checkpoints, o);
      r := Ok(o);
    }
  }

  /** A rejection part of the way through is the outcome of the whole loop. */
  lemma {:induction false} RejectionStands(l: Ledger, outcomes: seq<StreamOutcome>, n: nat, ids: nat -> string,
                                           now: Time)
    requires n <= |outcomes| && QuarantineBroken(l, outcomes[..n], ids, now).Err?
    ensures QuarantineBroken(l, outcomes, ids, now) == QuarantineBroken(l, outcomes[..n], ids, now)
  {
    hide Quarantine;
    if n == |outcomes| {
      assert outcomes[..n] == outcomes;
    } else {
      assert outcomes[..|outcomes| - 1][..n] == outcomes[..n];
      RejectionStands(l, outcomes[..|outcomes| - 1], n, ids, now);
    }
  }

  /**
   * Verifying one stream errs exactly for an unknown stream, or when the stream passes and the system stream
   * cannot take the event that records it; a stream that does not pass changes nothing.
   */
  lemma VerifySingleExactly(s: Integrity, k: StreamKey, id: string, now: Time)
    requires !HasEventId(s.ledger.log, id)
    ensures var r, passes := VerifyStream(s, k, id, now), Passes(Stream(s.ledger.log, k, 0), None);
            && (r == Err(StreamNotFound) <==> k !in s.ledger.heads)
            && (r == Err(Rejected(StreamQuarantined)) <==>
                k in s.ledger.heads && passes && Quarantined(s.ledger, SYSTEM_KEY))
            && (r.Err? ==> r == Err(StreamNotFound) || r == Err(Rejected(StreamQuarantined)))
            && (r.Ok? && !passes ==> r.value == s)
  {
    hide Stream, FirstBroken, LatestVersion;
  }

  /**
   * A release commits exactly for an administrator, on a known stream that verifies from its first
   * event, while the system stream takes the release event; it releases that stream and no other.
   */
  lemma ReleaseExactly(s: Integrity, k: StreamKey, scopes: set<string>, id: string, now: Time)
    requires !HasEventId(s.ledger.log, id)
    ensures var r := Unquarantine(s, k, scopes, id, now);
            && (r.Ok? <==> && "ADMINISTER_ENGINE" in scopes && k in s.ledger.heads
                           && Passes(Stream(s.ledger.log, k, 0), None)
                           && (k == SYSTEM_KEY || !Quarantined(s.ledger, SYSTEM_KEY)))
            && (r.Ok? ==> forall j :: Quarantined(r.value.ledger, j) <==> j != k && Quarantined(s.ledger, j))
            && (r == Err(StreamNotFound) <==> "ADMINISTER_ENGINE" in scopes && k !in s.ledger.heads)
            && (r == Err(ReleaseBlocked) <==>
                || "ADMINISTER_ENGINE" !in scopes
                || (k in s.ledger.heads && !Passes(Stream(s.ledger.log, k, 0), None)))
            && (r.Ok? ==> |r.value.ledger.log| == |s.ledger.log| + 1 && s.ledger.log < r.value.ledger.log)
  {
    hide Stream, FirstBroken, LatestVersion;
  }
}
