/** A concrete run in which a broken system stream keeps another broken stream from being quarantined. */
module IntegrityScenarios {
  import opened Common
  import opened Ledger
  import opened HashChain
  import opened IntegrityStreams
  import opened IntegrityTheorems

  const STREAM := StreamKey("tenant", "owner", "app")

  /** The first event of a stream. */
  function FirstDraft(k: StreamKey, eventId: string): Draft {
    Draft(Material(eventId, IntegrityCheckCompleted, "1.0", "IntegrityCheck", "check", 1, "core", k.tenantId, k.ownerId,
                   k.applicationId, 0, 0, "audit", "request", OtherPayload(""), SYSTEM_ACTOR), None)
  }

  /** Names of more than two letters, all different. */
  function Supply(n: nat): string { seq(n + 3, i => 'x') }

  function Tampered(e: EngineEvent): EngineEvent { e.(hash := Some(Text("tampered"))) }

  const START := Integrity(EMPTY, map[])
  const KEYS := [SYSTEM_KEY, STREAM]

  lemma FirstAppend(l: Ledger, k: StreamKey, eventId: string)
    requires HeadOf(l, k) == NEW_HEAD && forall e :: e in l.log ==> e.Key() != k && e.material.eventId != eventId
    ensures AppendOne(l, FirstDraft(k, eventId)).Ok?
  {
    NoVersion(l.log, FirstDraft(k, eventId).material.AggregateRef());
  }

  lemma NoVersion(log: seq<EngineEvent>, a: Aggregate)
    requires forall e :: e in log ==> e.material.AggregateRef() != a
    ensures LatestVersion(log, a) == 0
  {}

  /** The one event of its stream, its hash overwritten: the stream is reported broken. */
  lemma TamperedIsReported(s: Integrity, k: StreamKey, e: EngineEvent)
    requires s.checkpoints == map[] && Stream(s.ledger.log, k, 0) == [Tampered(e)]
    ensures VerifyOne(s, k, FULL).broken.Some? && !Passes(Stream(s.ledger.log, k, 0), None)
  {
    assert [Tampered(e)][..0] == [];
    assert !Chains(Tampered(e), None);
  }

  lemma SupplyIsNew(log: seq<EngineEvent>)
    requires forall e :: e in log ==> |e.material.eventId| <= 2
    ensures FreshSupply(log, Supply)
  {
    forall i: nat, j: nat | i != j ensures Supply(i) != Supply(j) { assert |Supply(i)| != |Supply(j)|; }
    forall i: nat ensures !HasEventId(log, Supply(i)) {
      assert forall n :: 0 <= n < |log| ==> log[n] in log && |log[n].material.eventId| < |Supply(i)|;
    }
  }

  /**
   * Two streams, the system's and an application's, are both overwritten behind the engine's back. The
   * verification pass finds both broken, fails, and leaves everything as it was: the application's
   * stream is not quarantined and goes on accepting events.
   */
  lemma BrokenSystemStreamBlocksQuarantine() returns (trace: seq<Integrity>, steps: seq<Step>)
    ensures Run(trace, steps) && trace[0] == START && |steps| == 4 && steps[3] == Verify(KEYS, FULL, Supply, 0)
    ensures Reported(Outcomes(trace[3], KEYS, FULL), SYSTEM_KEY) && Reported(Outcomes(trace[3], KEYS, FULL), STREAM)
    ensures !Passes(Stream(trace[3].ledger.log, STREAM, 0), None) && VerifyAll(trace[3], KEYS, FULL, Supply, 0).Err?
    ensures trace[4] == trace[3] && !Quarantined(trace[4].ledger, STREAM)
  {
    hide LatestVersion, HasEventId, KeyTaken, VerifyAll, VerifyOne, AppendOne, Stream, FirstBroken, Outcomes, Reported,
        FirstDraft;
    var l1, l2 := TwoAppends();
    var x, y := Tampered(l2.log[0]), Tampered(l2.log[1]);
    var broken := Integrity(l2.(log := [x, y]), map[]);
    trace := [START, Integrity(l1, map[]), Integrity(l2, map[]), broken, broken];
    steps := [Append(FirstDraft(SYSTEM_KEY, "e1")), Append(FirstDraft(STREAM, "e2")), Alter([x, y]),
              Verify(KEYS, FULL, Supply, 0)];
    BothReported(l2, broken, x, y);
    assert ListsStreams([x, y], KEYS) by { assert x in [x, y] && y in [x, y]; }
    assert Next(trace[0], steps[0], trace[1]);
    assert Next(trace[1], steps[1], trace[2]);
    assert Next(trace[2], steps[2], trace[3]);
    assert Next(trace[3], steps[3], trace[4]);
  }

  lemma TwoAppends() returns (l1: Ledger, l2: Ledger)
    ensures AppendOne(EMPTY, FirstDraft(SYSTEM_KEY, "e1")) == Ok(l1)
            && AppendOne(l1, FirstDraft(STREAM, "e2")) == Ok(l2)
    ensures |l2.log| == 2 && l2.log[0].Key() == SYSTEM_KEY && l2.log[1].Key() == STREAM && l2.next == 3
    ensures l2.log[0].position == 1 && l2.log[1].position == 2 && !Quarantined(l2, SYSTEM_KEY)
            && !Quarantined(l2, STREAM)
    ensures l2.log[0].material.eventId == "e1" && l2.log[1].material.eventId == "e2"
  {
    hide LatestVersion, HasEventId, KeyTaken;
    FirstAppend(EMPTY, SYSTEM_KEY, "e1");
    l1 := AppendOne(EMPTY, FirstDraft(SYSTEM_KEY, "e1")).value;
    FirstAppend(l1, STREAM, "e2");
    l2 := AppendOne(l1, FirstDraft(STREAM, "e2")).value;
  }

  /** With both events overwritten the pass reports both streams and fails. */
  lemma BothReported(l: Ledger, s: Integrity, x: EngineEvent, y: EngineEvent)
    requires |l.log| == 2 && l.log[0].Key() == SYSTEM_KEY && l.log[1].Key() == STREAM
    requires l.log[0].position == 1 && l.log[1].position == 2 && x == Tampered(l.log[0]) && y == Tampered(l.log[1])
    requires l.log[0].material.eventId == "e1" && l.log[1].material.eventId == "e2"
    requires s == Integrity(l.(log := [x, y]), map[])
    ensures Reported(Outcomes(s, KEYS, FULL), SYSTEM_KEY) && Reported(Outcomes(s, KEYS, FULL), STREAM)
    ensures !Passes(Stream(s.ledger.log, STREAM, 0), None) && VerifyAll(s, KEYS, FULL, Supply, 0).Err?
  {
    hide LatestVersion, HasEventId, KeyTaken, VerifyAll, FreshSupply, VerifyOne, AppendOne, FirstBroken, Stream;
    StreamsOfTwo(x, y);
    TamperedIsReported(s, SYSTEM_KEY, l.log[0]);
    TamperedIsReported(s, STREAM, l.log[1]);
    var outcomes := Outcomes(s, KEYS, FULL);
    assert outcomes[0] in outcomes && outcomes[1] in outcomes;
    assert outcomes[0].key == SYSTEM_KEY && outcomes[1].key == STREAM by { OutcomeKeys(s); }
    SupplyIsNew(s.ledger.log);
    VerifyCommitsExactly(s, KEYS, FULL, Supply, 0);
  }

  lemma OutcomeKeys(s: Integrity)
    ensures Outcomes(s, KEYS, FULL)[0].key == SYSTEM_KEY && Outcomes(s, KEYS, FULL)[1].key == STREAM
  {}

  lemma StreamsOfTwo(x: EngineEvent, y: EngineEvent)
    requires x.Key() == SYSTEM_KEY && y.Key() == STREAM && x.position > 0 && y.position > 0
    ensures Stream([x, y], SYSTEM_KEY, 0) == [x] && Stream([x, y], STREAM, 0) == [y]
  {
    hide Stream;
    StreamOfNone(SYSTEM_KEY);
    StreamOfNone(STREAM);
    assert [x, y] == [x] + [y] && [x] == [] + [x];
    StreamOfAppend([], x, SYSTEM_KEY, 0);
    StreamOfAppend([], x, STREAM, 0);
    StreamOfAppend([x], y, SYSTEM_KEY, 0);
    StreamOfAppend([x], y, STREAM, 0);
  }

  lemma StreamOfNone(k: StreamKey)
    ensures Stream([], k, 0) == []
  {}
}
