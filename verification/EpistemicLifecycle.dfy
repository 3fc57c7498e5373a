/** The life of a hypothesis: versions, activation at most once, retirement. */
module EpistemicLifecycle {
  import opened Common
  import opened Ledger
  import S = Submission
  import opened Epistemic
  import opened EpistemicRuns
  import opened EpistemicMirror
  import opened EpistemicTheorems

  // ---- versions -----------------------------------------------------------------------------

  /** The event's version follows the latest one before it. */
  predicate StampedAt(log: seq<EngineEvent>, i: nat)
    requires i < |log|
  {
    log[i].material.aggregateVersion == LatestVersion(log[..i], log[i].material.AggregateRef()) + 1
  }

  ghost predicate Stamped(log: seq<EngineEvent>) { forall i :: 0 <= i < |log| ==> StampedAt(log, i) }

  /** The versions recorded for an aggregate, in log order. */
  function VersionsOf(log: seq<EngineEvent>, a: Aggregate): seq<nat> {
    if |log| == 0 then []
    else
      var rest, m := VersionsOf(log[..|log| - 1], a), log[|log| - 1].material;
      if m.AggregateRef() == a then rest + [m.aggregateVersion] else rest
  }

  lemma StampedPrefix(log: seq<EngineEvent>, n: nat)
    requires Stamped(log) && n <= |log|
    ensures Stamped(log[..n])
  {
    forall i | 0 <= i < n ensures StampedAt(log[..n], i) {
      assert StampedAt(log, i);
      assert log[..n][..i] == log[..i];
    }
  }

  /** The versions of every aggregate are exactly 1 to n. */
  lemma {:induction false} VersionsCount(log: seq<EngineEvent>, a: Aggregate)
    requires Stamped(log)
    ensures |VersionsOf(log, a)| == LatestVersion(log, a)
    ensures forall i :: 0 <= i < |VersionsOf(log, a)| ==> VersionsOf(log, a)[i] == i + 1
  {
    if |log| > 0 {
      StampedPrefix(log, |log| - 1);
      VersionsCount(log[..|log| - 1], a);
      assert StampedAt(log, |log| - 1);
    }
  }

  lemma {:induction false} LatestBounds(log: seq<EngineEvent>, i: nat)
    requires i < |log|
    ensures log[i].material.aggregateVersion <= LatestVersion(log, log[i].material.AggregateRef())
  {
    if i < |log| - 1 { LatestBounds(log[..|log| - 1], i); }
  }

  /** An aggregate never carries one version twice. */
  lemma VersionsAreUnique(log: seq<EngineEvent>, i: nat, j: nat)
    requires Stamped(log) && i < j < |log| && log[i].material.AggregateRef() == log[j].material.AggregateRef()
    ensures log[i].material.aggregateVersion < log[j].material.aggregateVersion
  {
    assert StampedAt(log, j);
    assert log[..j][i] == log[i];
    LatestBounds(log[..j], i);
  }

  lemma AppendStamps(l: Ledger, d: Draft)
    requires Stamped(l.log) && AppendOne(l, d).Ok?
    ensures Stamped(AppendOne(l, d).value.log)
  {
    hide HasEventId, KeyTaken, LatestVersion;
    var log := AppendOne(l, d).value.log;
    forall i | 0 <= i < |log| ensures StampedAt(log, i) {
      if i < |l.log| {
        assert StampedAt(l.log, i);
        assert log[..i] == l.log[..i];
      } else {
        assert log[..i] == l.log;
      }
    }
  }

  lemma {:induction false} AppendManyStamps(l: Ledger, drafts: seq<Draft>)
    requires Stamped(l.log) && S.AppendMany(l, drafts).Ok?
    ensures Stamped(S.AppendMany(l, drafts).value.log)
  {
    if |drafts| > 0 {
      AppendManyStamps(l, drafts[..|drafts| - 1]);
      AppendStamps(S.AppendMany(l, drafts[..|drafts| - 1]).value, drafts[|drafts| - 1]);
    }
  }

  /** The first draft accepted carries the next version of its aggregate. */
  lemma {:induction false} FirstDraftIsNext(l: Ledger, drafts: seq<Draft>)
    requires S.AppendMany(l, drafts).Ok? && |drafts| > 0
    ensures drafts[0].material.aggregateVersion == LatestVersion(l.log, drafts[0].material.AggregateRef()) + 1
  {
    if |drafts| == 1 {
      assert drafts[..0] == [];
    } else {
      FirstDraftIsNext(l, drafts[..|drafts| - 1]);
    }
  }

  lemma {:induction false} LatestElsewhere(before: Ledger, drafts: seq<Draft>, after: Ledger, n: nat, a: Aggregate)
    requires Appended(before, drafts, after) && n <= |drafts|
    requires forall i :: 0 <= i < |drafts| ==> drafts[i].material.AggregateRef() != a
    ensures LatestVersion(after.log[..|before.log| + n], a) == LatestVersion(before.log, a)
    ensures n == |drafts| ==> after.log[..|before.log| + n] == after.log
  {
    if n == 0 {
      assert after.log[..|before.log|] == before.log;
    } else {
      LatestElsewhere(before, drafts, after, n - 1, a);
      assert after.log[..|before.log| + n][..|before.log| + n - 1] == after.log[..|before.log| + n - 1];
      assert IsDraft(after.log[|before.log| + (n - 1)], drafts[n - 1], before.next + (n - 1));
    }
  }

  lemma LatestOfOne(before: Ledger, drafts: seq<Draft>, after: Ledger)
    requires Appended(before, drafts, after) && |drafts| == 1
    requires drafts[0].material.aggregateVersion == LatestVersion(before.log, drafts[0].material.AggregateRef()) + 1
    ensures LatestVersion(after.log, drafts[0].material.AggregateRef()) == drafts[0].material.aggregateVersion
  {
    assert IsDraft(after.log[|before.log| + 0], drafts[0], before.next + 0);
    assert after.log[..|before.log|] == before.log;
  }

  // ---- activation ---------------------------------------------------------------------------

  function HypothesisAggregate(k: StreamKey, id: string): Aggregate { Aggregate(k, "Hypothesis", id) }

  predicate IsActivation(e: EngineEvent) {
    e.material.eventType.HypothesisActivated? && e.material.payload.ActivationPayload?
  }

  /** A proposed hypothesis has nothing in its history but its proposal. */
  ghost predicate ProposedIsNew(rows: map<string, Hypothesis>, log: seq<EngineEvent>) {
    forall id :: id in rows && rows[id].status == PROPOSED ==>
      LatestVersion(log, HypothesisAggregate(rows[id].key, id)) == 1
  }

  /** An activation is the second event of a known hypothesis. */
  predicate IsSecondEvent(rows: map<string, Hypothesis>, e: EngineEvent) {
    IsActivation(e) ==>
      && e.material.aggregateVersion == 2 && e.material.aggregateType == "Hypothesis"
      && e.material.payload.hypothesisId == e.material.aggregateId
      && e.material.aggregateId in rows && rows[e.material.aggregateId].key == e.Key()
  }

  predicate Activates(e: EngineEvent, x: Experiment) {
    IsActivation(e) && e.material.payload.experimentId == x.id && e.material.payload.hypothesisId == x.hypothesisId
  }

  ghost predicate HasActivation(log: seq<EngineEvent>, x: Experiment) { exists e :: e in log && Activates(e, x) }

  ghost predicate Alive(s: State) {
    && Stamped(s.ledger.log)
    && ProposedIsNew(s.tables.hypotheses, s.ledger.log) && ProposedIsNew(Replay(s.ledger.log).hypotheses, s.ledger.log)
    && (forall e :: e in s.ledger.log ==> IsSecondEvent(s.tables.hypotheses, e))
    && (forall id :: id in s.tables.experiments ==> HasActivation(s.ledger.log, s.tables.experiments[id]))
  }

  /** One hypothesis row changed to another status, its history possibly longer, and no other history touched. */
  lemma StatusWritten(rows: map<string, Hypothesis>, log: seq<EngineEvent>, h: Hypothesis, log': seq<EngineEvent>)
    requires ProposedIsNew(rows, log)
    requires h.status != PROPOSED || LatestVersion(log', HypothesisAggregate(h.key, h.id)) == 1
    requires forall id :: id in rows && id != h.id ==>
               LatestVersion(log', HypothesisAggregate(rows[id].key, id))
               == LatestVersion(log, HypothesisAggregate(rows[id].key, id))
    ensures ProposedIsNew(rows[h.id := h], log')
  {
    hide LatestVersion;
  }

  /** Rows keep their keys and the new events are no activations: the second-event property stays. */
  lemma SecondEventsStay(rows: map<string, Hypothesis>, log: seq<EngineEvent>, rows': map<string, Hypothesis>,
                         log': seq<EngineEvent>)
    requires forall e :: e in log ==> IsSecondEvent(rows, e)
    requires log <= log' && forall i :: |log| <= i < |log'| ==> IsSecondEvent(rows', log'[i])
    requires forall id :: id in rows ==> id in rows' && rows'[id].key == rows[id].key
    ensures forall e :: e in log' ==> IsSecondEvent(rows', e)
  {
    forall e | e in log' ensures IsSecondEvent(rows', e) {
      var i :| 0 <= i < |log'| && log'[i] == e;
      if i < |log| { assert log[i] in log; assert IsSecondEvent(rows, e); }
    }
  }

  lemma ActivationsStay(xs: map<string, Experiment>, log: seq<EngineEvent>, xs': map<string, Experiment>,
                        log': seq<EngineEvent>)
    requires forall id :: id in xs ==> HasActivation(log, xs[id])
    requires log <= log'
    requires forall id ::
               id in xs' ==> id in xs && xs'[id].id == xs[id].id && xs'[id].hypothesisId == xs[id].hypothesisId
    ensures forall id :: id in xs' ==> HasActivation(log', xs'[id])
  {
    forall id | id in xs' ensures HasActivation(log', xs'[id]) {
      var e :| e in log && Activates(e, xs[id]);
      assert e in log' && Activates(e, xs'[id]);
    }
  }

  // ---- each step ----------------------------------------------------------------------------

  /** Appending under one hypothesis leaves every other hypothesis's history as it was. */
  lemma OtherHistories(before: Ledger, drafts: seq<Draft>, after: Ledger, id: string)
    requires Appended(before, drafts, after)
    requires forall i ::
               0 <= i < |drafts| && drafts[i].material.aggregateType == "Hypothesis" ==>
                 drafts[i].material.aggregateId == id
    ensures forall k, g :: g != id ==>
              && LatestVersion(after.log, HypothesisAggregate(k, g))
                 == LatestVersion(before.log, HypothesisAggregate(k, g))
  {
    hide LatestVersion;
    forall k, g | g != id
      ensures LatestVersion(after.log, HypothesisAggregate(k, g))
              == LatestVersion(before.log, HypothesisAggregate(k, g))
    {
      LatestElsewhere(before, drafts, after, |drafts|, HypothesisAggregate(k, g));
    }
  }

  /** Events that concern no hypothesis leave every hypothesis's history as it was. */
  lemma NoHistories(before: Ledger, drafts: seq<Draft>, after: Ledger)
    requires Appended(before, drafts, after)
             && forall i :: 0 <= i < |drafts| ==> drafts[i].material.aggregateType != "Hypothesis"
    ensures forall k, g ::
              LatestVersion(after.log, HypothesisAggregate(k, g))
              == LatestVersion(before.log, HypothesisAggregate(k, g))
  {
    hide LatestVersion;
    forall k, g
      ensures LatestVersion(after.log, HypothesisAggregate(k, g))
              == LatestVersion(before.log, HypothesisAggregate(k, g))
    {
      LatestElsewhere(before, drafts, after, |drafts|, HypothesisAggregate(k, g));
    }
  }

  lemma NoActivations(before: Ledger, drafts: seq<Draft>, after: Ledger, rows: map<string, Hypothesis>)
    requires Appended(before, drafts, after)
             && forall i :: 0 <= i < |drafts| ==> !drafts[i].material.eventType.HypothesisActivated?
    ensures forall i :: |before.log| <= i < |after.log| ==> IsSecondEvent(rows, after.log[i])
  {
    forall i | |before.log| <= i < |after.log| ensures IsSecondEvent(rows, after.log[i]) {
      assert IsDraft(after.log[|before.log| + (i - |before.log|)], drafts[i - |before.log|],
                     before.next + (i - |before.log|));
    }
  }

  lemma ProposeAlive(s: State, auth: S.Auth, proposed: Option<Parameters>, confirmed: bool, ids: Ids, now: Time)
    requires Alive(s) && |ids.entities| >= 1 && |ids.events| >= 1 && Unused(s.tables, ids.entities[0])
    requires ids.entities[0] !in Replay(s.ledger.log).hypotheses
    requires Propose(s, auth, proposed, confirmed, ids, now).Ok?
    ensures Alive(Propose(s, auth, proposed, confirmed, ids, now).value)
  {
    hide S.AppendMany, Replay, LatestVersion, Stamped, HasActivation, IsSecondEvent, ProposedIsNew;
    var id := ids.entities[0];
    var t := Propose(s, auth, proposed, confirmed, ids, now).value;
    var drafts := [DraftFor(auth, HypothesisProposed, "Hypothesis", id, 1, ProposalPayload(id, proposed, confirmed),
                            ids.events[0], ids.auditId, ids.requestId, Some(ids.key), now)];
    AppendManyAppends(s.ledger, drafts);
    AppendManyStamps(s.ledger, drafts);
    FirstDraftIsNext(s.ledger, drafts);
    LatestOfOne(s.ledger, drafts, t.ledger);
    OtherHistories(s.ledger, drafts, t.ledger, id);
    ReplayOfOne(s.ledger, drafts, t.ledger);
    var e := t.ledger.log[|s.ledger.log|];
    StatusWritten(s.tables.hypotheses, s.ledger.log, t.tables.hypotheses[id], t.ledger.log);
    StatusWritten(Replay(s.ledger.log).hypotheses, s.ledger.log, OnProposed(NO_ROWS, e).hypotheses[id], t.ledger.log);
    NoActivations(s.ledger, drafts, t.ledger, t.tables.hypotheses);
    SecondEventsStay(s.tables.hypotheses, s.ledger.log, t.tables.hypotheses, t.ledger.log);
    ActivationsStay(s.tables.experiments, s.ledger.log, t.tables.experiments, t.ledger.log);
  }

  lemma RetireAlive(directory: string -> S.Auth, seen: State, version: nat, s: State, auth: S.Auth, id: string,
                    reason: string, ids: Ids, now: Time)
    requires Alive(s) && Mirror(directory, s) && Mirror(directory, seen) && Later(seen, s) && |ids.events| >= 1
    requires Retire(seen, version, s, auth, id, reason, ids, now).Ok?
    ensures Alive(Retire(seen, version, s, auth, id, reason, ids, now).value)
  {
    hide S.AppendMany, Replay, LatestVersion, Stamped, HasActivation, IsSecondEvent, ProposedIsNew, Mirror, Later,
        Listed;
    var t := Retire(seen, version, s, auth, id, reason, ids, now).value;
    var drafts := [DraftFor(auth, HypothesisRetired, "Hypothesis", id, version, RetirementPayload(id, reason),
                            ids.events[0], ids.auditId, ids.requestId, Some(ids.key), now)];
    AppendManyAppends(s.ledger, drafts);
    AppendManyStamps(s.ledger, drafts);
    OtherHistories(s.ledger, drafts, t.ledger, id);
    ReplayOfOne(s.ledger, drafts, t.ledger);
    SeenHypothesis(directory, seen, s, id);
    var replayed, e := Replay(s.ledger.log), t.ledger.log[|s.ledger.log|];
    StatusWritten(s.tables.hypotheses, s.ledger.log, t.tables.hypotheses[id], t.ledger.log);
    StatusWritten(replayed.hypotheses, s.ledger.log, OnRetired(replayed, e).hypotheses[id], t.ledger.log);
    NoActivations(s.ledger, drafts, t.ledger, t.tables.hypotheses);
    SecondEventsStay(s.tables.hypotheses, s.ledger.log, t.tables.hypotheses, t.ledger.log);
    ActivationsStay(s.tables.experiments, s.ledger.log, t.tables.experiments, t.ledger.log);
  }

  /** An activation that saw a proposed hypothesis commits as its second event, or not at all. */
  lemma ActivationIsSecond(directory: string -> S.Auth, seen: State, s: State, auth: S.Auth, id: string, p: Parameters,
                           ids: Ids, now: Time)
    requires Alive(seen) && Mirror(directory, seen) && directory(auth.applicationId) == auth && |ids.entities| >= 1
             && |ids.events| >= 3
    requires Activate(seen, NextVersion(seen, auth, "Hypothesis", id), s, auth, id, p, ids, now).Ok?
    ensures NextVersion(seen, auth, "Hypothesis", id) == 2
            && LatestVersion(s.ledger.log, HypothesisAggregate(auth.Key(), id)) == 1
  {
    hide S.AppendMany, Replay, LatestVersion, Stamped, HasActivation, IsSecondEvent, SameRows, Ranked;
    ScopedIsKeyed(directory, auth, seen.tables.hypotheses[id].key);
    FirstDraftIsNext(s.ledger, ActivationDrafts(auth, NextVersion(seen, auth, "Hypothesis", id), id, p, ids, now));
  }

  lemma ActivateAlive(directory: string -> S.Auth, seen: State, s: State, auth: S.Auth, id: string, p: Parameters,
                      ids: Ids, now: Time)
    requires Alive(s) && Alive(seen) && Mirror(directory, s) && Mirror(directory, seen) && Later(seen, s)
    requires directory(auth.applicationId) == auth && |ids.entities| >= 1 && |ids.events| >= 3
             && Unused(s.tables, ids.entities[0])
    requires Activate(seen, NextVersion(seen, auth, "Hypothesis", id), s, auth, id, p, ids, now).Ok?
    ensures Alive(Activate(seen, NextVersion(seen, auth, "Hypothesis", id), s, auth, id, p, ids, now).value)
  {
    hide S.AppendMany, Replay, LatestVersion, Stamped, HasActivation, IsSecondEvent, ProposedIsNew, Mirror, Later,
        Listed, ActivationDrafts;
    ActivationIsSecond(directory, seen, s, auth, id, p, ids, now);
    var t := Activate(seen, 2, s, auth, id, p, ids, now).value;
    var drafts := ActivationDrafts(auth, 2, id, p, ids, now);
    AppendManyAppends(s.ledger, drafts);
    AppendManyStamps(s.ledger, drafts);
    ActivationDraftKinds(auth, id, p, ids, now);
    OtherHistories(s.ledger, drafts, t.ledger, id);
    SeenHypothesis(directory, seen, s, id);
    SeenKey(directory, seen, auth, id);
    var g, y := ActivationReplay(s.ledger, auth, 2, id, p, ids, now, t.ledger);
    StatusWritten(s.tables.hypotheses, s.ledger.log, t.tables.hypotheses[id], t.ledger.log);
    StatusWritten(Replay(s.ledger.log).hypotheses, s.ledger.log, g, t.ledger.log);
    NewActivation(s.ledger, auth, id, p, ids, now, t.ledger, t.tables);
    SecondEventsStay(s.tables.hypotheses, s.ledger.log, t.tables.hypotheses, t.ledger.log);
    ActivationsStay(s.tables.experiments, s.ledger.log, s.tables.experiments, t.ledger.log);
  }

  lemma SeenKey(directory: string -> S.Auth, seen: State, auth: S.Auth, id: string)
    requires Mirror(directory, seen) && directory(auth.applicationId) == auth
             && FindHypothesis(seen.tables, auth, id).Some?
    ensures seen.tables.hypotheses[id].key == auth.Key()
  {
    ScopedIsKeyed(directory, auth, seen.tables.hypotheses[id].key);
  }

  lemma ActivationDraftKinds(auth: S.Auth, id: string, p: Parameters, ids: Ids, now: Time)
    requires |ids.entities| >= 1 && |ids.events| >= 3
    ensures var drafts := ActivationDrafts(auth, 2, id, p, ids, now);
            forall i :: 0 <= i < |drafts| && drafts[i].material.aggregateType == "Hypothesis" ==>
              drafts[i].material.aggregateId == id
  {}

  lemma NewActivation(before: Ledger, auth: S.Auth, id: string, p: Parameters, ids: Ids, now: Time, after: Ledger,
                      t: Tables)
    requires |ids.entities| >= 1 && |ids.events| >= 3
             && Appended(before, ActivationDrafts(auth, 2, id, p, ids, now), after)
    requires id in t.hypotheses && t.hypotheses[id].key == auth.Key()
    requires ids.entities[0] in t.experiments && t.experiments[ids.entities[0]].id == ids.entities[0]
             && t.experiments[ids.entities[0]].hypothesisId == id
    ensures forall i :: |before.log| <= i < |after.log| ==> IsSecondEvent(t.hypotheses, after.log[i])
    ensures HasActivation(after.log, t.experiments[ids.entities[0]])
  {
    var n, drafts := |before.log|, ActivationDrafts(auth, 2, id, p, ids, now);
    assert IsDraft(after.log[n + 0], drafts[0], before.next + 0);
    assert IsDraft(after.log[n + 1], drafts[1], before.next + 1);
    assert IsDraft(after.log[n + 2], drafts[2], before.next + 2);
    assert after.log[n] in after.log && Activates(after.log[n], t.experiments[ids.entities[0]]);
  }

  lemma EvaluateAlive(directory: string -> S.Auth, seen: State, s: State, h: Hypothesis, c: Case, t: State)
    requires Alive(s) && Mirror(directory, s) && Mirror(directory, seen) && Later(seen, s) && c.Valid()
    requires FindExperiment(seen.tables, c.auth, c.x.id) == Some(c.x)
             && FindHypothesis(seen.tables, c.auth, c.x.hypothesisId) == Some(h)
    requires S.AppendMany(s.ledger, c.Drafts()) == Ok(t.ledger) && t.tables == TablesAfter(s, h, c)
    ensures Alive(t)
  {
    hide S.AppendMany, Replay, LatestVersion, Stamped, HasActivation, IsSecondEvent, ProposedIsNew, Mirror, Later,
        Listed, EvaluationDrafts;
    AppendManyAppends(s.ledger, c.Drafts());
    AppendManyStamps(s.ledger, c.Drafts());
    EvaluationDraftKinds(c);
    NoHistories(s.ledger, c.Drafts(), t.ledger);
    EvaluationReplay(s.ledger, c, t.ledger);
    SeenHypothesis(directory, seen, s, c.x.hypothesisId);
    SeenExperiment(directory, seen, s, c.x.id);
    StatusWritten(s.tables.hypotheses, s.ledger.log, t.tables.hypotheses[h.id], t.ledger.log);
    SameHistories(Replay(s.ledger.log).hypotheses, s.ledger.log, t.ledger.log);
    NoActivations(s.ledger, c.Drafts(), t.ledger, t.tables.hypotheses);
    SecondEventsStay(s.tables.hypotheses, s.ledger.log, t.tables.hypotheses, t.ledger.log);
    ExperimentsKept(directory, s, c, t);
    ActivationsStay(s.tables.experiments, s.ledger.log, t.tables.experiments, t.ledger.log);
  }

  lemma ExperimentsKept(directory: string -> S.Auth, s: State, c: Case, t: State)
    requires Mirror(directory, s) && c.x.id in s.tables.experiments
             && SameExperiment(c.x.id, c.x, s.tables.experiments[c.x.id])
    requires exists status, audit, event, at: nat, now :: t.tables.experiments == s.tables.experiments[c.x.id :=
               c.x.(status := status, auditId := audit, eventId := event, position := at, updatedAt := now)]
    ensures forall id :: id in t.tables.experiments ==>
              && id in s.tables.experiments && t.tables.experiments[id].id == s.tables.experiments[id].id
              && t.tables.experiments[id].hypothesisId == s.tables.experiments[id].hypothesisId
  {}

  lemma EvaluationDraftKinds(c: Case)
    requires c.Valid()
    ensures forall i :: 0 <= i < |c.Drafts()| ==>
              c.Drafts()[i].material.aggregateType != "Hypothesis"
              && !c.Drafts()[i].material.eventType.HypothesisActivated?
  {}

  lemma SameHistories(rows: map<string, Hypothesis>, log: seq<EngineEvent>, log': seq<EngineEvent>)
    requires ProposedIsNew(rows, log)
    requires forall k, g ::
               LatestVersion(log', HypothesisAggregate(k, g)) == LatestVersion(log, HypothesisAggregate(k, g))
    ensures ProposedIsNew(rows, log')
  {
    hide LatestVersion;
  }

  /** Ignored events on other aggregates, with the rows as they were. */
  lemma OtherAlive(s: State, drafts: seq<Draft>, t: State)
    requires Alive(s) && S.AppendMany(s.ledger, drafts) == Ok(t.ledger) && t.tables == s.tables
    requires forall d :: d in drafts ==> IsIgnored(d.material.eventType) && d.material.aggregateType != "Hypothesis"
    ensures Alive(t)
  {
    hide S.AppendMany, Replay, LatestVersion, Stamped, HasActivation, IsSecondEvent, ProposedIsNew;
    AppendManyAppends(s.ledger, drafts);
    AppendManyStamps(s.ledger, drafts);
    ReplayIgnores(s.ledger, drafts, t.ledger);
    NoHistories(s.ledger, drafts, t.ledger);
    SameHistories(s.tables.hypotheses, s.ledger.log, t.ledger.log);
    SameHistories(Replay(s.ledger.log).hypotheses, s.ledger.log, t.ledger.log);
    NoActivations(s.ledger, drafts, t.ledger, t.tables.hypotheses);
    SecondEventsStay(s.tables.hypotheses, s.ledger.log, t.tables.hypotheses, t.ledger.log);
    ActivationsStay(s.tables.experiments, s.ledger.log, t.tables.experiments, t.ledger.log);
  }

  /** Rows taken from the replay serve as well. */
  lemma ReplayedAlive(directory: string -> S.Auth, s: State)
    requires Alive(s) && Mirror(directory, s)
    ensures Alive(s.(tables := Replay(s.ledger.log)))
  {
    hide Replay, LatestVersion, Stamped, HasActivation, IsSecondEvent, ProposedIsNew, Ranked, Owned;
    var replayed := Replay(s.ledger.log);
    SecondEventsStay(s.tables.hypotheses, s.ledger.log, replayed.hypotheses, s.ledger.log);
    ActivationsStay(s.tables.experiments, s.ledger.log, replayed.experiments, s.ledger.log);
  }

  lemma RebuildAlive(directory: string -> S.Auth, s: State, order: seq<Belief>, ids: Ids, now: Time)
    requires Alive(s) && Mirror(directory, s) && |ids.events| >= 1 && ListsBeliefs(order, Replay(s.ledger.log).beliefs)
    requires Rebuild(s, order, ids, now).Ok?
    ensures Alive(Rebuild(s, order, ids, now).value)
  {
    hide Alive, Replay, WriteAll, LatestVersion, HasEventId, KeyTaken, Mirror, ListsBeliefs;
    RebuildMirrors(directory, s, order, ids, now);
    ReplayedAlive(directory, s);
    var d := RebuildDraft(s, ids, now);
    assert [d][..0] == [];
    assert S.AppendMany(s.ledger, [d]) == AppendOne(s.ledger, d);
    OtherAlive(s.(tables := Replay(s.ledger.log)), [d], Rebuild(s, order, ids, now).value);
  }

  lemma SameLogAlive(s: State, t: State)
    requires Alive(s) && t.ledger.log == s.ledger.log && t.tables == s.tables
    ensures Alive(t)
  {}

  lemma StepAlive(directory: string -> S.Auth, seen: State, s: State, step: Step, t: State)
    requires Next(directory, seen, s, step, t) && Mirror(directory, seen) && Mirror(directory, s) && Later(seen, s)
             && Alive(seen) && Alive(s)
    ensures Alive(t)
  {
    hide Alive, Mirror, Later, Replay, Propose, Activate, Retire, Evaluate, Rebuild, S.AppendMany, ReadsCurrent,
        FreshIds, ListsBeliefs;
    var ids, now := step.ids, step.now;
    DrawnIds(directory, s, ids);
    if t == s { return; }
    match step.action
    case DoPropose(auth, proposed, confirmed) => ProposeAlive(s, auth, proposed, confirmed, ids, now);
    case DoActivate(auth, id, p) => ActivateAlive(directory, seen, s, auth, id, p, ids, now);
    case DoRetire(auth, id, reason) => RetireAlive(directory, seen, NextVersion(seen, auth, "Hypothesis", id), s, auth,
                                                   id, reason, ids, now);
    case DoEvaluate(auth, experimentId, phase, a, prior) =>
      ReplayedChangesNothing(seen, prior, s, auth, experimentId, phase, a, ids, now);
      var h, c := CaseOf(seen, prior, s, auth, experimentId, phase, a, ids, now);
      CaseFinds(seen, c, experimentId, directory);
      CommittedLedger(seen, prior, s, auth, experimentId, phase, a, ids, now, c);
      EvaluateAlive(directory, seen, s, h, c, t);
    case DoRebuild(order) => RebuildAlive(directory, s, order, ids, now);
    case DoOther(drafts) => OtherAlive(s, drafts, t);
    case SetHead(_, _, _) => SameLogAlive(s, t);
    case SkipTo(_) => SameLogAlive(s, t);
  }

  lemma DrawnIds(directory: string -> S.Auth, s: State, ids: Ids)
    requires FreshIds(s, ids) && Mirror(directory, s)
    ensures |ids.entities| >= 4 && |ids.events| >= 4 && Unused(s.tables, ids.entities[0])
            && Unused(s.tables, ids.entities[3])
    ensures ids.entities[0] !in Replay(s.ledger.log).hypotheses
  {
    hide Replay;
    assert Unused(s.tables, ids.entities[0]) && Unused(s.tables, ids.entities[3]);
  }

  lemma CommittedLedger(seen: State, prior: Option<Belief>, s: State, auth: S.Auth, experimentId: string,
                        phase: EvidencePhase,
                        a: Assessment, ids: Ids, now: Time, c: Case)
    requires |ids.entities| >= 4 && |ids.events| >= 4
    requires Evaluate(seen, prior, s, auth, experimentId, phase, a, ids, now).Ok?
    requires !Evaluate(seen, prior, s, auth, experimentId, phase, a, ids, now).value.replayed
    requires FindExperiment(seen.tables, auth, experimentId) == Some(c.x)
    requires c == Case(c.x, auth, phase, a, DecisionFor(c.x, phase, a, now), prior, ids, now) && c.Valid()
    ensures S.AppendMany(s.ledger, c.Drafts())
            == Ok(Evaluate(seen, prior, s, auth, experimentId, phase, a, ids, now).value.state.ledger)
  {
    hide S.AppendMany, EvaluationDrafts, EvaluatedTables, FingerprintTaken;
  }

  lemma {:induction false} AliveThroughout(directory: string -> S.Auth, trace: seq<State>, steps: seq<Step>, i: nat)
    requires Run(directory, trace, steps) && i < |trace|
    ensures Alive(trace[i])
    decreases i
  {
    hide Mirror, Later;
    if i > 0 {
      hide Alive;
      var seen := steps[i - 1].since;
      AliveThroughout(directory, trace, steps, i - 1);
      AliveThroughout(directory, trace, steps, seen);
      MirrorThroughout(directory, trace, steps, seen, i - 1);
      StepAlive(directory, trace[seen], trace[i - 1], steps[i - 1], trace[i]);
    }
  }

  // ---- what follows -------------------------------------------------------------------------

  /** Whatever transactions interleave, each aggregate's versions in the ledger are exactly 1 to n, in log order. */
  lemma VersionsAreConsecutive(directory: string -> S.Auth, trace: seq<State>, steps: seq<Step>, i: nat, a: Aggregate)
    requires Run(directory, trace, steps) && i < |trace|
    ensures var versions := VersionsOf(trace[i].ledger.log, a); forall n :: 0 <= n < |versions| ==> versions[n] == n + 1
  {
    AliveThroughout(directory, trace, steps, i);
    VersionsCount(trace[i].ledger.log, a);
  }

  /** With each transaction reading one snapshot, however stale, no hypothesis is activated twice. */
  lemma ActivatedAtMostOnce(directory: string -> S.Auth, trace: seq<State>, steps: seq<Step>, i: nat, e: EngineEvent,
                            f: EngineEvent)
    requires Run(directory, trace, steps) && i < |trace| && e in trace[i].ledger.log && f in trace[i].ledger.log
    requires IsActivation(e) && IsActivation(f) && e.material.payload.hypothesisId == f.material.payload.hypothesisId
    ensures e == f
  {
    AliveThroughout(directory, trace, steps, i);
    var log := trace[i].ledger.log;
    assert IsSecondEvent(trace[i].tables.hypotheses, e) && IsSecondEvent(trace[i].tables.hypotheses, f);
    var m, n :| 0 <= m < |log| && log[m] == e && 0 <= n < |log| && log[n] == f;
    if m < n { VersionsAreUnique(log, m, n); }
    if n < m { VersionsAreUnique(log, n, m); }
  }

  /** ... and none has two experiments. */
  lemma OneExperimentPerHypothesis(directory: string -> S.Auth, trace: seq<State>, steps: seq<Step>, i: nat, x: string,
                                   y: string)
    requires Run(directory, trace, steps) && i < |trace| && x in trace[i].tables.experiments
             && y in trace[i].tables.experiments
    requires trace[i].tables.experiments[x].hypothesisId == trace[i].tables.experiments[y].hypothesisId
    ensures x == y
  {
    hide Mirror;
    AliveThroughout(directory, trace, steps, i);
    var s := trace[i];
    assert HasActivation(s.ledger.log, s.tables.experiments[x]) && HasActivation(s.ledger.log, s.tables.experiments[y]);
    var e, f :| e in s.ledger.log && Activates(e, s.tables.experiments[x]) && f in s.ledger.log
    && Activates(f, s.tables.experiments[y]);
    ActivatedAtMostOnce(directory, trace, steps, i, e, f);
    ExperimentIds(directory, trace, steps, i, x);
    ExperimentIds(directory, trace, steps, i, y);
  }

  lemma ExperimentIds(directory: string -> S.Auth, trace: seq<State>, steps: seq<Step>, i: nat, x: string)
    requires Run(directory, trace, steps) && i < |trace| && x in trace[i].tables.experiments
    ensures trace[i].tables.experiments[x].id == x
  {
    MirrorThroughout(directory, trace, steps, i, i);
  }
}
