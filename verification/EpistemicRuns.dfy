/** Runs of the epistemic loop: transactions that read one earlier state and commit onto the current one. */
module EpistemicRuns {
  import opened Common
  import opened Ledger
  import opened Submission
  import opened Epistemic

  datatype Action =
    | DoPropose(auth: Auth, proposed: Option<Parameters>, confirmed: bool)
    | DoActivate(auth: Auth, hypothesisId: string, parameters: Parameters)
    | DoRetire(auth: Auth, hypothesisId: string, reason: string)
    | DoEvaluate(auth: Auth, experimentId: string, phase: EvidencePhase, assessment: Assessment, prior: Option<Belief>)
    | DoRebuild(order: seq<Belief>)
    | DoOther(drafts: seq<Draft>)
    | SetHead(key: StreamKey, status: StreamStatus, broken: Option<string>)
    | SkipTo(next: nat)

  /** A transaction read the state `since` steps into the run and draws the given ids and clock. */
  datatype Step = Step(since: nat, action: Action, ids: Ids, now: Time)

  /** The drawn ids name nothing recorded so far, and are different. */
  ghost predicate FreshIds(s: State, ids: Ids) {
    && |ids.entities| >= 4 && |ids.events| >= 4
    && (forall i, e :: 0 <= i < |ids.entities| && e in s.ledger.log ==> e.material.aggregateId != ids.entities[i])
    && (forall i :: 0 <= i < |ids.entities| ==> Unused(s.tables, ids.entities[i]))
    && (forall i, j :: 0 <= i < j < |ids.entities| ==> ids.entities[i] != ids.entities[j])
  }

  predicate Unused(t: Tables, id: string) {
    id !in t.hypotheses && id !in t.experiments && id !in t.beliefs && id !in t.evidence && id !in t.learning
  }

  predicate IsEpistemicAggregate(t: string) {
    t == "Hypothesis" || t == "Experiment" || t == "Evidence" || t == "Belief" || t == "Outcome" || t == "Learning"
  }

  function OrUnchanged(s: State, r: Result<State, EpistemicError>): State { if r.Ok? then r.value else s }

  /** Write the beliefs one by one, each demoting those before it in its chain. */
  function WriteAll(order: seq<Belief>): map<string, Belief> {
    if |order| == 0 then map[] else UpsertBelief(WriteAll(order[..|order| - 1]), order[|order| - 1])
  }

  /** The rows, each once, by ascending position. */
  ghost predicate ListsBeliefs(order: seq<Belief>, beliefs: map<string, Belief>) {
    && (forall i, j :: 0 <= i < j < |order| ==> order[i].position <= order[j].position && order[i].id != order[j].id)
    && (forall i :: 0 <= i < |order| ==> order[i].id in beliefs && beliefs[order[i].id] == order[i])
    && (forall id :: id in beliefs ==> beliefs[id] in order)
  }

  function RebuildDraft(s: State, ids: Ids, now: Time): Draft
    requires |ids.events| >= 1
  {
    SystemDraft(s.ledger, ProjectionRebuilt, "Projection", "epistemic_loop", "", ids.events[0], ids.auditId, now)
  }

  /** Delete every row, write the replayed ones, record the rebuild. */
  function Rebuild(s: State, order: seq<Belief>, ids: Ids, now: Time): Result<State, EpistemicError>
    requires |ids.events| >= 1
  {
    var r := AppendOne(s.ledger, RebuildDraft(s, ids, now));
    if r.Err? then Err(Rejected(r.error))
    else Ok(State(r.value, Replay(s.ledger.log).(beliefs := WriteAll(order))))
  }

  /** `directory` is the table of applications every caller's identity comes from. */
  ghost predicate Next(directory: string -> Auth, seen: State, s: State, step: Step, t: State) {
    var ids, now := step.ids, step.now;
    FreshIds(s, ids) &&
    match step.action
    case DoPropose(auth, proposed, confirmed) =>
      directory(auth.applicationId) == auth && t == OrUnchanged(s, Propose(s, auth, proposed, confirmed, ids, now))
    case DoActivate(auth, hypothesisId, p) =>
      && directory(auth.applicationId) == auth
      && t == OrUnchanged(s,
                          Activate(seen, NextVersion(seen, auth, "Hypothesis", hypothesisId), s, auth, hypothesisId, p,
                                   ids, now))
    case DoRetire(auth, hypothesisId, reason) =>
      && directory(auth.applicationId) == auth
      && t == OrUnchanged(s,
                          Retire(seen, NextVersion(seen, auth, "Hypothesis", hypothesisId), s, auth, hypothesisId,
                                 reason, ids, now))
    case DoEvaluate(auth, experimentId, phase, a, prior) =>
      && directory(auth.applicationId) == auth
      && (FindExperiment(seen.tables, auth, experimentId).Some? ==>
            ReadsCurrent(seen.tables.beliefs, auth, seen.tables.experiments[experimentId].hypothesisId, prior))
      && var r := Evaluate(seen, prior, s, auth, experimentId, phase, a, ids, now);
         t == if r.Ok? then r.value.state else s
    case DoRebuild(order) =>
      ListsBeliefs(order, Replay(s.ledger.log).beliefs) && t == OrUnchanged(s, Rebuild(s, order, ids, now))
    case DoOther(drafts) =>
      && (forall d ::
          d in drafts ==> IsIgnored(d.material.eventType) && !IsEpistemicAggregate(d.material.aggregateType))
      && var r := AppendMany(s.ledger, drafts);
         t == if r.Ok? then s.(ledger := r.value) else s
    case SetHead(k, status, broken) =>
      t == s.(ledger :=
              s.ledger.(heads := s.ledger.heads[k := HeadOf(s.ledger, k).(status := status, brokenEventId := broken)]))
    case SkipTo(next) => s.ledger.next <= next && t == s.(ledger := s.ledger.(next := next))
  }

  ghost predicate Run(directory: string -> Auth, trace: seq<State>, steps: seq<Step>) {
    && |trace| == |steps| + 1 && trace[0] == State(EMPTY, NO_ROWS)
    && forall i ::
         0 <= i < |steps| ==>
           steps[i].since <= i && Next(directory, trace[steps[i].since], trace[i], steps[i], trace[i + 1])
  }

  /** Every transaction saw the state it committed onto. */
  ghost predicate Atomic(steps: seq<Step>) { forall i :: 0 <= i < |steps| ==> steps[i].since == i }

  // ---- appending several drafts -------------------------------------------------------------

  /** The events are the drafts, in order, at consecutive positions. */
  ghost predicate Appended(before: Ledger, drafts: seq<Draft>, after: Ledger) {
    && |after.log| == |before.log| + |drafts| && before.log <= after.log && after.next == before.next + |drafts|
    && forall i :: 0 <= i < |drafts| ==> IsDraft(after.log[|before.log| + i], drafts[i], before.next + i)
  }

  predicate IsDraft(e: EngineEvent, d: Draft, position: nat) {
    && e.material == d.material && e.idempotencyKey == d.idempotencyKey && e.position == position
    && PayloadFits(e.material.eventType, e.material.payload)
  }

  lemma {:induction false} AppendManyAppends(l: Ledger, drafts: seq<Draft>)
    requires AppendMany(l, drafts).Ok?
    ensures Appended(l, drafts, AppendMany(l, drafts).value)
  {
    hide LatestVersion, HasEventId, KeyTaken;
    if |drafts| > 0 {
      var init := drafts[..|drafts| - 1];
      AppendManyAppends(l, init);
      assert forall i :: 0 <= i < |init| ==> init[i] == drafts[i];
    }
  }

  // ---- replay of a longer log ---------------------------------------------------------------

  lemma ReplayNext(log: seq<EngineEvent>, n: nat)
    requires n < |log|
    ensures Replay(log[..n + 1]) == Apply(Replay(log[..n]), log[n])
  {
    assert log[..n + 1][..n] == log[..n];
  }

  lemma {:induction false} ReplayIgnores(before: Ledger, drafts: seq<Draft>, after: Ledger)
    requires Appended(before, drafts, after) && forall d :: d in drafts ==> IsIgnored(d.material.eventType)
    ensures Replay(after.log) == Replay(before.log)
  {
    ReplayIgnoresUpto(before, drafts, after, |drafts|);
    assert after.log[..|after.log|] == after.log;
  }

  lemma {:induction false} ReplayIgnoresUpto(before: Ledger, drafts: seq<Draft>, after: Ledger, n: nat)
    requires Appended(before, drafts, after) && n <= |drafts|
    requires forall d :: d in drafts ==> IsIgnored(d.material.eventType)
    ensures Replay(after.log[..|before.log| + n]) == Replay(before.log)
  {
    hide Replay;
    if n == 0 {
      assert after.log[..|before.log|] == before.log;
    } else {
      ReplayIgnoresUpto(before, drafts, after, n - 1);
      ReplayNext(after.log, |before.log| + n - 1);
      assert IsDraft(after.log[|before.log| + n - 1], drafts[n - 1], before.next + n - 1);
    }
  }

  lemma ReplayOfOne(before: Ledger, drafts: seq<Draft>, after: Ledger)
    requires Appended(before, drafts, after) && |drafts| == 1
    ensures IsDraft(after.log[|before.log|], drafts[0], before.next)
    ensures Replay(after.log) == Apply(Replay(before.log), after.log[|before.log|])
  {
    hide Replay;
    var n := |before.log|;
    assert after.log[..n] == before.log && after.log[..n + 1] == after.log;
    assert IsDraft(after.log[n + 0], drafts[0], before.next + 0);
    ReplayNext(after.log, n);
  }

  lemma ReplayOfTwo(before: Ledger, drafts: seq<Draft>, after: Ledger)
    requires Appended(before, drafts, after) && |drafts| >= 2
    ensures IsDraft(after.log[|before.log|], drafts[0], before.next)
    ensures IsDraft(after.log[|before.log| + 1], drafts[1], before.next + 1)
    ensures Replay(after.log[..|before.log| + 2]) ==
            Apply(Apply(Replay(before.log), after.log[|before.log|]), after.log[|before.log| + 1])
    ensures |drafts| == 2 ==> after.log[..|before.log| + 2] == after.log
  {
    hide Replay;
    var n := |before.log|;
    assert after.log[..n] == before.log;
    assert IsDraft(after.log[n + 0], drafts[0], before.next + 0);
    assert IsDraft(after.log[n + 1], drafts[1], before.next + 1);
    ReplayNext(after.log, n);
    ReplayNext(after.log, n + 1);
  }

  lemma ReplayOfThree(before: Ledger, drafts: seq<Draft>, after: Ledger)
    requires Appended(before, drafts, after) && |drafts| == 3
    ensures IsDraft(after.log[|before.log| + 2], drafts[2], before.next + 2)
    ensures Replay(after.log) == Apply(Replay(after.log[..|before.log| + 2]), after.log[|before.log| + 2])
  {
    hide Replay;
    var n := |before.log|;
    assert IsDraft(after.log[n + 2], drafts[2], before.next + 2);
    ReplayNext(after.log, n + 2);
    assert after.log[..n + 3] == after.log;
  }

  lemma ReplayOfFour(before: Ledger, drafts: seq<Draft>, after: Ledger)
    requires Appended(before, drafts, after) && |drafts| == 4
    ensures IsDraft(after.log[|before.log| + 2], drafts[2], before.next + 2)
    ensures IsDraft(after.log[|before.log| + 3], drafts[3], before.next + 3)
    ensures Replay(after.log) ==
            Apply(Apply(Replay(after.log[..|before.log| + 2]), after.log[|before.log| + 2]),
                  after.log[|before.log| + 3])
  {
    hide Replay;
    var n := |before.log|;
    assert IsDraft(after.log[n + 2], drafts[2], before.next + 2);
    assert IsDraft(after.log[n + 3], drafts[3], before.next + 3);
    ReplayNext(after.log, n + 2);
    ReplayNext(after.log, n + 3);
    assert after.log[..n + 4] == after.log;
  }
}
