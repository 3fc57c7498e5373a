/** What holds over every run of the integrity service, whatever is appended, verified, released or altered. */
module IntegrityTheorems {
  import opened Common
  import opened Ledger
  import opened HashChain
  import opened IntegrityStreams

  // ---- ledgers only grow --------------------------------------------------------------------

  ghost predicate Grown(a: Ledger, b: Ledger) {
    && Ordered(b.log, b.next) && a.next <= b.next
    && a.log <= b.log
    && forall i :: |a.log| <= i < |b.log| ==> b.log[i].position >= a.next
  }

  lemma AppendGrows(l: Ledger, d: Draft)
    requires Ordered(l.log, l.next) && l.next > 0
    ensures AppendOne(l, d).Ok? ==> Grown(l, AppendOne(l, d).value)
  {}

  lemma QuarantineGrows(l: Ledger, outcomes: seq<StreamOutcome>, ids: nat -> string, now: Time)
    requires Ordered(l.log, l.next) && l.next > 0
    ensures QuarantineBroken(l, outcomes, ids, now).Ok? ==> Grown(l, QuarantineBroken(l, outcomes, ids, now).value)
  {
    hide Quarantine, Grown;
    var n := |outcomes| - 1;
    if |outcomes| == 0 || QuarantineBroken(l, outcomes, ids, now).Err? { GrownSelf(l); return; }
    QuarantineGrows(l, outcomes[..n], ids, now);
    if outcomes[n].broken.Some? {
      OneQuarantineGrows(l, QuarantineBroken(l, outcomes[..n], ids, now).value, outcomes[n], ids, 2 * n + 2, now);
    }
  }

  lemma GrownSelf(l: Ledger)
    requires Ordered(l.log, l.next)
    ensures Grown(l, l)
  {}

  lemma OneQuarantineGrows(l: Ledger, mid: Ledger, o: StreamOutcome, ids: nat -> string, n: nat, now: Time)
    requires Grown(l, mid) && l.next > 0 && o.broken.Some?
    ensures Quarantine(mid, o, ids, n, now).Ok? ==> Grown(l, Quarantine(mid, o, ids, n, now).value)
  {
    hide LatestVersion, HasEventId, KeyTaken, SystemDraft;
  }

  lemma GrowthKeepsPrefixes(a: Ledger, b: Ledger, k: StreamKey, to: nat)
    requires Grown(a, b) && to < a.next
    ensures Upto(b.log, k, to) == Upto(a.log, k, to)
    decreases |b.log|
  {
    if |a.log| == |b.log| {
      assert a.log == b.log;
    } else {
      var init := b.log[..|b.log| - 1];
      assert init[..|a.log|] == a.log;
      GrowthKeepsPrefixes(a, b.(log := init), k, to);
    }
  }

  // ---- every checkpoint is the verified end of its prefix -----------------------------------

  ghost predicate TrustedAt(l: Ledger, k: StreamKey, c: Checkpoint) {
    && c.position < l.next
    && Passes(Upto(l.log, k, c.position), None)
    && Tip(Upto(l.log, k, c.position), None) == c.hash
  }

  ghost predicate Trusted(s: Integrity) {
    && s.ledger.next > 0 && Ordered(s.ledger.log, s.ledger.next)
    && forall k :: k in s.checkpoints ==> TrustedAt(s.ledger, k, s.checkpoints[k])
  }

  /** Resuming from a trusted checkpoint gives the verdict of verifying from the first event. */
  lemma IncrementalIsFull(s: Integrity, k: StreamKey)
    requires Trusted(s)
    ensures VerifyOne(s, k, INCREMENTAL).broken == VerifyOne(s, k, FULL).broken
  {
    if k in s.checkpoints {
      var at := s.checkpoints[k].position;
      StreamSplits(s.ledger.log, s.ledger.next, k, at);
      VerificationSplits(Upto(s.ledger.log, k, at), Stream(s.ledger.log, k, at), None);
    }
  }

  /** The checkpoint hash is the loop's whole state: also for a legacy-only range, where it is absent. */
  lemma RecordedHashIsTheTip(events: seq<EngineEvent>, anchor: Option<Digest>)
    requires |events| > 0 && Passes(events, anchor)
    ensures Tip(events, anchor) ==
            if Truthy(events[|events| - 1].hash) then events[|events| - 1].hash else anchor
  {
    if events[|events| - 1].hash.None? { TipKeepsAnchor(events[..|events| - 1], anchor); }
  }

  lemma TipKeepsAnchor(events: seq<EngineEvent>, anchor: Option<Digest>)
    ensures Tip(events, anchor).None? ==> anchor.None?
  {
    if |events| > 0 { TipKeepsAnchor(events[..|events| - 1], anchor); }
  }

  lemma AdvanceIsTrusted(s: Integrity, k: StreamKey, mode: Mode)
    requires Trusted(s) && VerifyOne(s, k, mode).broken.None? && |VerifyOne(s, k, mode).events| > 0
    ensures TrustedAt(s.ledger, k, AdvanceCheckpoint(s.checkpoints, VerifyOne(s, k, mode))[k])
  {
    var log := s.ledger.log;
    var (anchor, from) := StartOf(s, k, mode);
    var events := Stream(log, k, from);
    UptoTheLast(log, s.ledger.next, k, from);
    StreamSplits(log, s.ledger.next, k, from);
    RecordedHashIsTheTip(events, anchor);
    if mode == INCREMENTAL && k in s.checkpoints {
      VerificationSplits(Upto(log, k, from), events, None);
      TipOfConcat(Upto(log, k, from), events, None);
    } else {
      NoneAtZero(log, s.ledger.next, k);
    }
  }

  lemma NoneAtZero(log: seq<EngineEvent>, next: nat, k: StreamKey)
    requires Ordered(log, next)
    ensures Upto(log, k, 0) == []
  {}

  lemma AdvancesAreTrusted(s: Integrity, outcomes: seq<StreamOutcome>, mode: Mode)
    requires Trusted(s) && forall o :: o in outcomes ==> o == VerifyOne(s, o.key, mode)
    ensures forall k :: k in AdvanceClean(s.checkpoints, outcomes) ==>
              TrustedAt(s.ledger, k, AdvanceClean(s.checkpoints, outcomes)[k])
  {
    if |outcomes| == 0 { return; }
    var n := |outcomes| - 1;
    AdvancesAreTrusted(s, outcomes[..n], mode);
    var last := outcomes[n];
    if last.broken.None? && |last.events| > 0 { AdvanceIsTrusted(s, last.key, mode); }
  }

  lemma GrowthKeepsTrust(s: Integrity, l: Ledger)
    requires Trusted(s) && Grown(s.ledger, l)
    ensures Trusted(s.(ledger := l))
  {
    forall k | k in s.checkpoints ensures TrustedAt(l, k, s.checkpoints[k]) {
      GrowthKeepsPrefixes(s.ledger, l, k, s.checkpoints[k].position);
    }
  }

  lemma VerifyAllKeepsTrust(s: Integrity, keys: seq<StreamKey>, mode: Mode, ids: nat -> string, now: Time)
    requires Trusted(s) && VerifyAll(s, keys, mode, ids, now).Ok?
    ensures Trusted(VerifyAll(s, keys, mode, ids, now).value)
  {
    var outcomes := Outcomes(s, keys, mode);
    AdvancesAreTrusted(s, outcomes, mode);
    var d := SystemDraft(s.ledger, IntegrityCheckCompleted, "IntegrityCheck", "integrity_" + ids(0), "", ids(1), ids(0),
                         now);
    AppendGrows(s.ledger, d);
    var completed := AppendOne(s.ledger, d).value;
    var advanced := Integrity(s.ledger, AdvanceClean(s.checkpoints, outcomes));
    GrowthKeepsTrust(advanced, completed);
    QuarantineGrows(completed, outcomes, ids, now);
    GrowthKeepsTrust(advanced.(ledger := completed), QuarantineBroken(completed, outcomes, ids, now).value);
  }

  lemma RecordKeepsTrust(s: Integrity, k: StreamKey, l: Ledger, d: Draft)
    requires Trusted(s) && VerifyOne(s, k, FULL).broken.None?
    requires l.log == s.ledger.log && l.next == s.ledger.next && AppendOne(l, d).Ok?
    ensures Trusted(Integrity(AppendOne(l, d).value, AdvanceCheckpoint(s.checkpoints, VerifyOne(s, k, FULL))))
  {
    if |VerifyOne(s, k, FULL).events| > 0 { AdvanceIsTrusted(s, k, FULL); }
    AppendGrows(l, d);
    GrowthKeepsTrust(Integrity(s.ledger, AdvanceCheckpoint(s.checkpoints, VerifyOne(s, k, FULL))),
                     AppendOne(l, d).value);
  }

  lemma StepKeepsTrust(s: Integrity, step: Step, t: Integrity)
    requires Trusted(s) && Next(s, step, t)
    ensures Trusted(t)
  {
    match step
    case Append(d) =>
      AppendGrows(s.ledger, d);
      if AppendOne(s.ledger, d).Ok? { GrowthKeepsTrust(s, AppendOne(s.ledger, d).value); }
    case Verify(keys, mode, ids, now) =>
      if VerifyAll(s, keys, mode, ids, now).Ok? { VerifyAllKeepsTrust(s, keys, mode, ids, now); }
    case VerifySingle(k, id, now) =>
      if t != s {
        RecordKeepsTrust(s, k, s.ledger,
                         SystemDraft(s.ledger, IntegrityStreamVerified, "IntegrityStream", StreamName(k), "", id, id,
                                     now));
      }
    case Release(k, scopes, id, now) =>
      if t != s {
        var l := ReleaseStream(s.ledger, k);
        RecordKeepsTrust(s, k, l,
                         SystemDraft(l, IntegrityStreamReleased, "IntegrityStream", StreamName(k), "", id, id, now));
      }
    case Alter(log) =>
    case SkipPositions(next) =>
  }

  lemma {:induction false} TrustThroughout(trace: seq<Integrity>, steps: seq<Step>, i: nat)
    requires Run(trace, steps) && i < |trace|
    requires trace[0].checkpoints == map[] && trace[0].ledger.next > 0
             && Ordered(trace[0].ledger.log, trace[0].ledger.next)
    ensures Trusted(trace[i])
  {
    if i > 0 {
      TrustThroughout(trace, steps, i - 1);
      StepKeepsTrust(trace[i - 1], steps[i - 1], trace[i]);
    }
  }

  /**
   * INCREMENTAL refines FULL: from any event table without checkpoints, after any run of appends,
   * verifications, releases and alterations past the checkpoints, both modes give every stream the
   * same verdict and the same first broken event.
   */
  lemma IncrementalRefinesFull(trace: seq<Integrity>, steps: seq<Step>, i: nat, k: StreamKey)
    requires Run(trace, steps) && i < |trace|
    requires trace[0].checkpoints == map[] && trace[0].ledger.next > 0
             && Ordered(trace[0].ledger.log, trace[0].ledger.next)
    ensures VerifyOne(trace[i], k, INCREMENTAL).broken == VerifyOne(trace[i], k, FULL).broken
  {
    TrustThroughout(trace, steps, i);
    IncrementalIsFull(trace[i], k);
  }

  // ---- when the modes can disagree ----------------------------------------------------------

  ghost predicate DistinctIds(events: seq<EngineEvent>) {
    forall i, j :: 0 <= i < j < |events| ==> events[i].material.eventId != events[j].material.eventId
  }

  lemma BrokenIsAMember(events: seq<EngineEvent>, anchor: Option<Digest>)
    requires !Passes(events, anchor)
    ensures exists e :: e in events && FirstBroken(events, anchor) == Some(e.material.eventId)
  {
    var init, last := events[..|events| - 1], events[|events| - 1];
    if !Passes(init, anchor) {
      BrokenIsAMember(init, anchor);
      var e :| e in init && FirstBroken(init, anchor) == Some(e.material.eventId);
      assert e in events;
    } else {
      assert last in events;
    }
  }

  /**
   * A range gives the same verdict under two anchors exactly when they are equal, it is empty, or its first
   * event fits neither.
   */
  lemma AnchorsAgree(events: seq<EngineEvent>, a: Option<Digest>, b: Option<Digest>)
    requires DistinctIds(events)
    ensures FirstBroken(events, a) == FirstBroken(events, b) <==>
            a == b || |events| == 0 || (!Chains(events[0], a) && !Chains(events[0], b))
  {
    if |events| == 0 || a == b { return; }
    var rest := events[1..];
    assert events == [events[0]] + rest;
    VerdictOnOne(events[0], rest, a);
    VerdictOnOne(events[0], rest, b);
    var id := events[0].material.eventId;
    forall anchor ensures FirstBroken(rest, anchor) != Some(id) {
      if !Passes(rest, anchor) { BrokenIsAMember(rest, anchor); }
    }
  }

  /**
   * Where an alteration reaches behind the checkpoint: with `before` the checkpointed range as it
   * now stands and `after` the rest, the modes agree exactly when `before` still passes and its tip
   * is the recorded hash, or `after` cannot tell the two apart.
   */
  lemma ModesAgreeExactly(before: seq<EngineEvent>, after: seq<EngineEvent>, recorded: Option<Digest>)
    requires DistinctIds(before + after)
    ensures FirstBroken(after, recorded) == FirstBroken(before + after, None) <==>
            && Passes(before, None)
            && (|| Tip(before, None) == recorded || |after| == 0
                || (!Chains(after[0], Tip(before, None)) && !Chains(after[0], recorded)))
  {
    assert forall i :: 0 <= i < |after| ==> after[i] == (before + after)[|before| + i];
    assert DistinctIds(after);
    if Passes(before, None) {
      VerificationSplits(before, after, None);
      AnchorsAgree(after, Tip(before, None), recorded);
    } else {
      BrokenPrefixDecides(before, after, None);
      BrokenIsAMember(before, None);
      if !Passes(after, recorded) {
        BrokenIsAMember(after, recorded);
        var e :| e in before && FirstBroken(before, None) == Some(e.material.eventId);
        var f :| f in after && FirstBroken(after, recorded) == Some(f.material.eventId);
        var i :| 0 <= i < |before| && before[i] == e;
        var j :| 0 <= j < |after| && after[j] == f;
        assert (before + after)[i] == e && (before + after)[|before| + j] == f;
      }
    }
  }

  // ---- quarantine is a kill-switch ----------------------------------------------------------

  ghost predicate Quarantined(l: Ledger, k: StreamKey) { HeadOf(l, k).status == QUARANTINED }

  /** No append reaches a quarantined stream. */
  lemma AppendRespectsQuarantine(l: Ledger, d: Draft, k: StreamKey)
    requires AppendOne(l, d).Ok? && Quarantined(l, k)
    ensures Quarantined(AppendOne(l, d).value, k)
    ensures Stream(AppendOne(l, d).value.log, k, 0) == Stream(l.log, k, 0)
  {
    StreamOfAppend(l.log, Persist(l, d), k, 0);
  }

  lemma OneQuarantineRespects(l: Ledger, o: StreamOutcome, ids: nat -> string, n: nat, now: Time, k: StreamKey)
    requires o.broken.Some? && Quarantine(l, o, ids, n, now).Ok?
    ensures Quarantined(Quarantine(l, o, ids, n, now).value, k) <==> Quarantined(l, k) || o.key == k
    ensures Quarantined(l, k) ==> Stream(Quarantine(l, o, ids, n, now).value.log, k, 0) == Stream(l.log, k, 0)
  {
    hide AppendOne, Stream;
    var marked := QuarantineStream(l, o.key, o.broken.value);
    var d := SystemDraft(marked, IntegrityViolationDetected, "IntegrityCheck",
                         "integrity_violation_" + o.broken.value, "", ids(n), ids(0), now);
    var noted := AppendOne(marked, d).value;
    var e := SystemDraft(noted, IntegrityStreamQuarantined, "IntegrityStream", StreamName(o.key), "", ids(n + 1),
                         ids(0), now);
    AppendKeepsStatus(marked, d, k);
    AppendKeepsStatus(noted, e, k);
    if Quarantined(l, k) {
      AppendRespectsQuarantine(marked, d, k);
      AppendRespectsQuarantine(noted, e, k);
    }
  }

  lemma AppendKeepsStatus(l: Ledger, d: Draft, k: StreamKey)
    requires AppendOne(l, d).Ok?
    ensures Quarantined(AppendOne(l, d).value, k) <==> Quarantined(l, k)
  {
    hide LatestVersion, HasEventId, KeyTaken;
  }

  ghost predicate Reported(outcomes: seq<StreamOutcome>, k: StreamKey) {
    exists o :: o in outcomes && o.key == k && o.broken.Some?
  }

  lemma ReportedSplits(outcomes: seq<StreamOutcome>, k: StreamKey)
    requires |outcomes| > 0
    ensures var last := outcomes[|outcomes| - 1];
            Reported(outcomes, k) <==> Reported(outcomes[..|outcomes| - 1], k) || (last.key == k && last.broken.Some?)
  {
    assert outcomes == outcomes[..|outcomes| - 1] + [outcomes[|outcomes| - 1]];
  }

  /** Recording the breaks quarantines exactly the reported streams, and leaves quarantined ones untouched. */
  lemma QuarantinesExactlyTheBroken(l: Ledger, outcomes: seq<StreamOutcome>, ids: nat -> string, now: Time,
                                    k: StreamKey)
    requires QuarantineBroken(l, outcomes, ids, now).Ok?
    ensures Quarantined(QuarantineBroken(l, outcomes, ids, now).value, k)
            <==> Quarantined(l, k) || Reported(outcomes, k)
    ensures Quarantined(l, k) ==> Stream(QuarantineBroken(l, outcomes, ids, now).value.log, k, 0) == Stream(l.log, k, 0)
  {
    hide Quarantine, Quarantined, Reported, Stream;
    if |outcomes| == 0 { NoneReported(k); return; }
    var n, last := |outcomes| - 1, outcomes[|outcomes| - 1];
    QuarantinesExactlyTheBroken(l, outcomes[..n], ids, now, k);
    ReportedSplits(outcomes, k);
    if last.broken.Some? {
      OneQuarantineRespects(QuarantineBroken(l, outcomes[..n], ids, now).value, last, ids, 2 * n + 2, now, k);
    }
  }

  lemma NoneReported(k: StreamKey)
    ensures !Reported([], k)
  {}

  /**
   * One engine step on a quarantined stream other than the system's own: its events stay as they
   * are, and it leaves quarantine only by an administrator's release after full verification passes.
   */
  lemma KillSwitchStep(s: Integrity, step: Step, t: Integrity, k: StreamKey)
    requires Next(s, step, t) && !step.Alter? && k != SYSTEM_KEY && Quarantined(s.ledger, k)
    ensures Stream(t.ledger.log, k, 0) == Stream(s.ledger.log, k, 0)
    ensures !Quarantined(t.ledger, k) ==>
              step.Release? && step.key == k && ADMINISTER_ENGINE in step.scopes
              && Passes(Stream(s.ledger.log, k, 0), None)
  {
    match step
    case Append(d) =>
      if AppendOne(s.ledger, d).Ok? { AppendRespectsQuarantine(s.ledger, d, k); }
    case Verify(keys, mode, ids, now) =>
      if VerifyAll(s, keys, mode, ids, now).Ok? {
        var d := SystemDraft(s.ledger, IntegrityCheckCompleted, "IntegrityCheck", "integrity_" + ids(0), "", ids(1),
                             ids(0), now);
        AppendRespectsQuarantine(s.ledger, d, k);
        QuarantinesExactlyTheBroken(AppendOne(s.ledger, d).value, Outcomes(s, keys, mode), ids, now, k);
      }
    case VerifySingle(j, id, now) =>
      if t != s {
        AppendRespectsQuarantine(s.ledger,
                                 SystemDraft(s.ledger, IntegrityStreamVerified, "IntegrityStream", StreamName(j), "",
                                             id, id, now), k);
      }
    case Release(j, scopes, id, now) =>
      if t != s {
        var l := ReleaseStream(s.ledger, j);
        var d := SystemDraft(l, IntegrityStreamReleased, "IntegrityStream", StreamName(j), "", id, id, now);
        StreamOfAppend(l.log, Persist(l, d), k, 0);
      }
    case SkipPositions(next) =>
  }

  /** Over any run of engine steps: from quarantine to release not one event of the stream changes. */
  lemma {:induction false} KillSwitch(trace: seq<Integrity>, steps: seq<Step>, i: nat, j: nat, k: StreamKey)
    requires Run(trace, steps) && i <= j < |trace| && k != SYSTEM_KEY
    requires forall m :: i <= m < j ==> !steps[m].Alter? && Quarantined(trace[m].ledger, k)
    requires Quarantined(trace[i].ledger, k)
    ensures Stream(trace[j].ledger.log, k, 0) == Stream(trace[i].ledger.log, k, 0)
    ensures !Quarantined(trace[j].ledger, k) ==>
              j > i && steps[j - 1].Release? && steps[j - 1].key == k && Passes(Stream(trace[i].ledger.log, k, 0), None)
  {
    hide Stream, FirstBroken, Next, Quarantined;
    if i < j {
      KillSwitch(trace, steps, i, j - 1, k);
      KillSwitchStep(trace[j - 1], steps[j - 1], trace[j], k);
    }
  }

  // ---- when verification commits ------------------------------------------------------------

  /** The id supply is fresh: no repetition, nothing already recorded. */
  ghost predicate FreshSupply(log: seq<EngineEvent>, ids: nat -> string) {
    && (forall i, j :: i != j ==> ids(i) != ids(j))
    && (forall i :: !HasEventId(log, ids(i)))
  }

  /** The ids of a log are those it had before, and some of the supply below `n`. */
  ghost predicate IdsWithin(before: seq<EngineEvent>, ids: nat -> string, n: nat, log: seq<EngineEvent>) {
    forall e :: e in log ==>
      HasEventId(before, e.material.eventId) || exists i :: 0 <= i < n && e.material.eventId == ids(i)
  }

  lemma SupplyStaysFresh(before: seq<EngineEvent>, ids: nat -> string, n: nat, log: seq<EngineEvent>)
    requires FreshSupply(before, ids) && IdsWithin(before, ids, n, log)
    ensures !HasEventId(log, ids(n))
  {
    assert forall i :: 0 <= i < |log| ==> log[i] in log;
  }

  /** A system event is accepted unless the system stream is quarantined. */
  lemma SystemEventCommits(before: seq<EngineEvent>, l: Ledger, t: EventType, a: string, x: string, ids: nat -> string,
                           n: nat, now: Time)
    requires FreshSupply(before, ids) && IdsWithin(before, ids, n, l.log) && PayloadFits(t, OtherPayload(""))
    ensures var r := AppendOne(l, SystemDraft(l, t, a, x, "", ids(n), ids(0), now));
            && (r.Ok? <==> !Quarantined(l, SYSTEM_KEY))
            && (r.Ok? ==> IdsWithin(before, ids, n + 1, r.value.log) && !Quarantined(r.value, SYSTEM_KEY))
  {
    SupplyStaysFresh(before, ids, n, l.log);
    var d := SystemDraft(l, t, a, x, "", ids(n), ids(0), now);
    var r := AppendOne(l, d);
    if r.Ok? {
      forall e | e in r.value.log
        ensures HasEventId(before, e.material.eventId) || exists i :: 0 <= i < n + 1 && e.material.eventId == ids(i)
      {
        if e in l.log {} else { assert e == Persist(l, d) && e.material.eventId == ids(n); }
      }
    }
  }

  lemma OneQuarantineCommits(before: seq<EngineEvent>, l: Ledger, o: StreamOutcome, ids: nat -> string, n: nat,
                             now: Time)
    requires FreshSupply(before, ids) && IdsWithin(before, ids, n, l.log) && o.broken.Some?
             && !Quarantined(l, SYSTEM_KEY)
    ensures var r := Quarantine(l, o, ids, n, now);
            && (r.Ok? <==> o.key != SYSTEM_KEY)
            && (r.Ok? ==> IdsWithin(before, ids, n + 2, r.value.log) && !Quarantined(r.value, SYSTEM_KEY))
  {
    hide AppendOne, FreshSupply, IdsWithin;
    var marked := QuarantineStream(l, o.key, o.broken.value);
    SystemEventCommits(before, marked, IntegrityViolationDetected, "IntegrityCheck",
                       "integrity_violation_" + o.broken.value, ids, n, now);
    if o.key != SYSTEM_KEY {
      var noted := AppendOne(marked, SystemDraft(marked, IntegrityViolationDetected, "IntegrityCheck",
                                                 "integrity_violation_"
                                                 + o.broken.value, "", ids(n), ids(0), now)).value;
      SystemEventCommits(before, noted, IntegrityStreamQuarantined, "IntegrityStream", StreamName(o.key), ids, n + 1,
                         now);
    }
  }

  lemma QuarantineBrokenCommits(before: seq<EngineEvent>, l: Ledger, outcomes: seq<StreamOutcome>, ids: nat -> string,
                                now: Time)
    requires FreshSupply(before, ids) && IdsWithin(before, ids, 2, l.log) && !Quarantined(l, SYSTEM_KEY)
    ensures var r := QuarantineBroken(l, outcomes, ids, now);
            && (r.Ok? <==> !Reported(outcomes, SYSTEM_KEY))
            && (r.Ok? ==> IdsWithin(before, ids, 2 * |outcomes| + 2, r.value.log) && !Quarantined(r.value, SYSTEM_KEY))
  {
    hide Quarantine, Reported, Quarantined, FreshSupply, IdsWithin;
    if |outcomes| == 0 { NoneReported(SYSTEM_KEY); return; }
    var n := |outcomes| - 1;
    QuarantineBrokenCommits(before, l, outcomes[..n], ids, now);
    ReportedSplits(outcomes, SYSTEM_KEY);
    var rest := QuarantineBroken(l, outcomes[..n], ids, now);
    if rest.Ok? {
      if outcomes[n].broken.Some? {
        OneQuarantineCommits(before, rest.value, outcomes[n], ids, 2 * n + 2, now);
      } else {
        MoreIdsAllowed(before, ids, 2 * n + 2, rest.value.log);
      }
    }
  }

  lemma MoreIdsAllowed(before: seq<EngineEvent>, ids: nat -> string, n: nat, log: seq<EngineEvent>)
    requires IdsWithin(before, ids, n, log)
    ensures IdsWithin(before, ids, n + 2, log)
  {
    forall e | e in log && !HasEventId(before, e.material.eventId)
      ensures exists i :: 0 <= i < n + 2 && e.material.eventId == ids(i)
    {
      var i :| 0 <= i < n && e.material.eventId == ids(i);
    }
  }

  /**
   * A verification pass commits exactly when the system stream is itself intact and not quarantined:
   * otherwise the events recording the quarantine are rejected, the whole pass rolls back, and no
   * broken stream is quarantined at all.
   */
  lemma VerifyCommitsExactly(s: Integrity, keys: seq<StreamKey>, mode: Mode, ids: nat -> string, now: Time)
    requires FreshSupply(s.ledger.log, ids)
    ensures VerifyAll(s, keys, mode, ids, now).Ok? <==>
            !Quarantined(s.ledger, SYSTEM_KEY) && !Reported(Outcomes(s, keys, mode), SYSTEM_KEY)
    ensures VerifyAll(s, keys, mode, ids, now).Ok? ==>
              forall k :: Quarantined(VerifyAll(s, keys, mode, ids, now).value.ledger, k) <==>
                          Quarantined(s.ledger, k) || Reported(Outcomes(s, keys, mode), k)
  {
    var outcomes := Outcomes(s, keys, mode);
    forall e | e in s.ledger.log ensures HasEventId(s.ledger.log, e.material.eventId) {}
    assert IdsWithin(s.ledger.log, ids, 1, s.ledger.log);
    SystemEventCommits(s.ledger.log, s.ledger, IntegrityCheckCompleted, "IntegrityCheck", "integrity_" + ids(0), ids, 1,
                       now);
    var completed := AppendOne(s.ledger, SystemDraft(s.ledger, IntegrityCheckCompleted, "IntegrityCheck",
                                                     "integrity_" + ids(0), "", ids(1), ids(0), now));
    if completed.Ok? {
      QuarantineBrokenCommits(s.ledger.log, completed.value, outcomes, ids, now);
      if VerifyAll(s, keys, mode, ids, now).Ok? {
        forall k ensures Quarantined(VerifyAll(s, keys, mode, ids, now).value.ledger, k) <==>
                         Quarantined(s.ledger, k) || Reported(outcomes, k)
        {
          QuarantinesExactlyTheBroken(completed.value, outcomes, ids, now, k);
        }
      }
    }
  }

  // ---- unaltered streams verify -------------------------------------------------------------

  /** The stream passes and its head anchors the next append. */
  ghost predicate Intact(l: Ledger, k: StreamKey) {
    Passes(Stream(l.log, k, 0), None) && HeadOf(l, k).hash == Tip(Stream(l.log, k, 0), None)
  }

  lemma AppendKeepsIntact(l: Ledger, d: Draft, k: StreamKey)
    requires Intact(l, k) && l.next > 0 && AppendOne(l, d).Ok?
    ensures Intact(AppendOne(l, d).value, k) && AppendOne(l, d).value.next > 0
    ensures Quarantined(AppendOne(l, d).value, k) <==> Quarantined(l, k)
  {
    StreamOfAppend(l.log, Persist(l, d), k, 0);
    if d.material.Key() == k { AppendKeepsPassing(Stream(l.log, k, 0), Persist(l, d)); }
  }

  lemma OneQuarantineKeepsIntact(l: Ledger, o: StreamOutcome, ids: nat -> string, n: nat, now: Time, k: StreamKey)
    requires o.broken.Some? && Quarantine(l, o, ids, n, now).Ok? && Intact(l, k) && l.next > 0
    ensures Intact(Quarantine(l, o, ids, n, now).value, k) && Quarantine(l, o, ids, n, now).value.next > 0
  {
    hide LatestVersion, HasEventId, KeyTaken, FirstBroken, Tip, Stream;
    var marked := QuarantineStream(l, o.key, o.broken.value);
    var d := SystemDraft(marked, IntegrityViolationDetected, "IntegrityCheck",
                         "integrity_violation_" + o.broken.value, "", ids(n), ids(0), now);
    AppendKeepsIntact(marked, d, k);
    var noted := AppendOne(marked, d).value;
    AppendKeepsIntact(noted, SystemDraft(noted, IntegrityStreamQuarantined, "IntegrityStream",
                                        StreamName(o.key), "", ids(n + 1), ids(0), now), k);
  }

  lemma QuarantiningKeepsIntact(l: Ledger, outcomes: seq<StreamOutcome>, ids: nat -> string, now: Time, k: StreamKey)
    requires Intact(l, k) && l.next > 0 && QuarantineBroken(l, outcomes, ids, now).Ok?
    ensures Intact(QuarantineBroken(l, outcomes, ids, now).value, k)
            && QuarantineBroken(l, outcomes, ids, now).value.next > 0
  {
    hide Quarantine, Intact;
    if |outcomes| == 0 { return; }
    var n := |outcomes| - 1;
    QuarantiningKeepsIntact(l, outcomes[..n], ids, now, k);
    if outcomes[n].broken.Some? {
      OneQuarantineKeepsIntact(QuarantineBroken(l, outcomes[..n], ids, now).value, outcomes[n], ids, 2 * n + 2, now, k);
    }
  }

  lemma VerifyKeepsIntact(s: Integrity, keys: seq<StreamKey>, mode: Mode, ids: nat -> string, now: Time, k: StreamKey)
    requires Trusted(s) && Intact(s.ledger, k) && VerifyAll(s, keys, mode, ids, now).Ok?
    ensures Intact(VerifyAll(s, keys, mode, ids, now).value.ledger, k)
    ensures Quarantined(VerifyAll(s, keys, mode, ids, now).value.ledger, k) <==> Quarantined(s.ledger, k)
  {
    var d := SystemDraft(s.ledger, IntegrityCheckCompleted, "IntegrityCheck", "integrity_" + ids(0), "", ids(1), ids(0),
                         now);
    AppendKeepsIntact(s.ledger, d, k);
    var completed := AppendOne(s.ledger, d).value;
    QuarantiningKeepsIntact(completed, Outcomes(s, keys, mode), ids, now, k);
    QuarantinesExactlyTheBroken(completed, Outcomes(s, keys, mode), ids, now, k);
    IncrementalIsFull(s, k);
    IntactIsNotReported(s, keys, mode, k);
  }

  lemma IntactIsNotReported(s: Integrity, keys: seq<StreamKey>, mode: Mode, k: StreamKey)
    requires Trusted(s) && Passes(Stream(s.ledger.log, k, 0), None)
    ensures !Reported(Outcomes(s, keys, mode), k)
  {
    IncrementalIsFull(s, k);
    assert VerifyOne(s, k, FULL).broken.None?;
    assert forall o :: o in Outcomes(s, keys, mode) ==> o == VerifyOne(s, o.key, mode);
  }

  lemma StepKeepsIntact(s: Integrity, step: Step, t: Integrity, k: StreamKey)
    requires Trusted(s) && Next(s, step, t) && Intact(s.ledger, k)
    requires step.Alter? ==> Stream(step.log, k, 0) == Stream(s.ledger.log, k, 0)
    ensures Intact(t.ledger, k)
    ensures !Quarantined(s.ledger, k) ==> !Quarantined(t.ledger, k)
  {
    match step
    case Append(d) =>
      if AppendOne(s.ledger, d).Ok? { AppendKeepsIntact(s.ledger, d, k); }
    case Verify(keys, mode, ids, now) =>
      if VerifyAll(s, keys, mode, ids, now).Ok? { VerifyKeepsIntact(s, keys, mode, ids, now, k); }
    case VerifySingle(j, id, now) =>
      if t != s {
        AppendKeepsIntact(s.ledger,
                          SystemDraft(s.ledger, IntegrityStreamVerified, "IntegrityStream", StreamName(j), "", id, id,
                                      now), k);
      }
    case Release(j, scopes, id, now) =>
      if t != s {
        var l := ReleaseStream(s.ledger, j);
        AppendKeepsIntact(l, SystemDraft(l, IntegrityStreamReleased, "IntegrityStream", StreamName(j), "", id, id, now),
                          k);
      }
    case Alter(log) =>
    case SkipPositions(next) =>
  }

  /**
   * A stream whose recorded events are never altered verifies in both modes and is never quarantined,
   * whatever is appended to, verified in, released from or altered in other streams.
   */
  lemma {:induction false} UnalteredStreamsVerify(trace: seq<Integrity>, steps: seq<Step>, i: nat, k: StreamKey)
    requires Run(trace, steps) && i < |trace| && Intact(trace[0].ledger, k) && !Quarantined(trace[0].ledger, k)
    requires trace[0].checkpoints == map[] && trace[0].ledger.next > 0
             && Ordered(trace[0].ledger.log, trace[0].ledger.next)
    requires forall m :: 0 <= m < |steps| && steps[m].Alter? ==>
               Stream(steps[m].log, k, 0) == Stream(trace[m].ledger.log, k, 0)
    ensures Intact(trace[i].ledger, k) && !Quarantined(trace[i].ledger, k)
    ensures VerifyOne(trace[i], k, FULL).broken.None? && VerifyOne(trace[i], k, INCREMENTAL).broken.None?
  {
    if i > 0 {
      UnalteredStreamsVerify(trace, steps, i - 1, k);
      TrustThroughout(trace, steps, i - 1);
      StepKeepsIntact(trace[i - 1], steps[i - 1], trace[i], k);
    }
    IncrementalRefinesFull(trace, steps, i, k);
  }
}
