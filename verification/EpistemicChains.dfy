/** The beliefs about one hypothesis: a single chain, ending in the current one. */
module EpistemicChains {
  import opened Common
  import opened Ledger
  import S = Submission
  import opened Epistemic
  import opened EpistemicRuns
  import opened EpistemicMirror
  import opened EpistemicTheorems

  predicate IsBeliefAbout(e: EngineEvent, hypothesisId: string) {
    && (e.material.eventType.BeliefCreated? || e.material.eventType.BeliefUpdated?)
    && e.material.payload.BeliefPayload? && e.material.payload.hypothesisId == hypothesisId
  }

  /** The beliefs recorded about a hypothesis, in log order. */
  function Chain(log: seq<EngineEvent>, hypothesisId: string): seq<string> {
    if |log| == 0 then []
    else
      var rest, e := Chain(log[..|log| - 1], hypothesisId), log[|log| - 1];
      if IsBeliefAbout(e, hypothesisId) then rest + [e.material.payload.beliefId] else rest
  }

  /**
   * The ids list every belief of the hypothesis, each pointing at the one before, positions ascending, only
   * the last current.
   */
  ghost predicate IsChain(beliefs: map<string, Belief>, hypothesisId: string, ids: seq<string>) {
    && (forall i :: 0 <= i < |ids| ==> ids[i] in beliefs && LinksTo(beliefs[ids[i]], hypothesisId, ids, i))
    && (forall i, j :: 0 <= i < j < |ids| ==> beliefs[ids[i]].position < beliefs[ids[j]].position)
    && (forall id :: id in beliefs && beliefs[id].hypothesisId == hypothesisId ==> id in ids)
  }

  predicate LinksTo(b: Belief, hypothesisId: string, ids: seq<string>, i: nat)
    requires i < |ids|
  {
    && b.id == ids[i] && b.hypothesisId == hypothesisId
    && b.previousBeliefId == (if i == 0 then None else Some(ids[i - 1]))
    && (b.isCurrent <==> i == |ids| - 1)
  }

  function LastOf(ids: seq<string>): Option<string> { if |ids| == 0 then None else Some(ids[|ids| - 1]) }

  // ---- the chain of a longer log ------------------------------------------------------------

  lemma ChainNext(log: seq<EngineEvent>, n: nat, h: string)
    requires n < |log|
    ensures Chain(log[..n + 1], h) ==
            if IsBeliefAbout(log[n], h) then Chain(log[..n], h) + [log[n].material.payload.beliefId]
                else Chain(log[..n], h)
  {
    assert log[..n + 1][..n] == log[..n];
  }

  lemma {:induction false} ChainIgnores(before: Ledger, drafts: seq<Draft>, after: Ledger, n: nat, h: string)
    requires Appended(before, drafts, after) && n <= |drafts|
    requires forall d :: d in drafts ==> !d.material.eventType.BeliefCreated? && !d.material.eventType.BeliefUpdated?
    ensures Chain(after.log[..|before.log| + n], h) == Chain(before.log, h)
    ensures n == |drafts| ==> after.log[..|before.log| + n] == after.log
  {
    hide Chain;
    if n == 0 {
      assert after.log[..|before.log|] == before.log;
    } else {
      ChainIgnores(before, drafts, after, n - 1, h);
      ChainNext(after.log, |before.log| + n - 1, h);
      assert IsDraft(after.log[|before.log| + n - 1], drafts[n - 1], before.next + n - 1);
    }
  }

  lemma ChainOfEvaluation(before: Ledger, c: Case, after: Ledger, h: string)
    requires c.Valid() && Appended(before, c.Drafts(), after)
    ensures Chain(after.log, h) == if h == c.x.hypothesisId then Chain(before.log, h) + [c.ids.entities[1]]
              else Chain(before.log, h)
  {
    hide Chain;
    var n, log := |before.log|, after.log;
    DraftCount(c);
    assert log[..n] == before.log;
    assert IsDraft(log[n + 0], c.Drafts()[0], before.next + 0);
    assert IsDraft(log[n + 1], c.Drafts()[1], before.next + 1);
    ChainNext(log, n, h);
    ChainNext(log, n + 1, h);
    if c.d.terminal {
      assert IsDraft(log[n + 2], c.Drafts()[2], before.next + 2);
      assert IsDraft(log[n + 3], c.Drafts()[3], before.next + 3);
      ChainNext(log, n + 2, h);
      ChainNext(log, n + 3, h);
      assert log[..n + 4] == log;
    } else {
      assert log[..n + 2] == log;
    }
  }

  // ---- one more belief ----------------------------------------------------------------------

  /** `after` is the table with one new current belief, its hypothesis demoted. */
  ghost predicate Grown(beliefs: map<string, Belief>, row: Belief, after: map<string, Belief>) {
    && after.Keys == beliefs.Keys + {row.id} && row.id !in beliefs && after[row.id] == row && row.isCurrent
    && forall id :: id in beliefs ==>
         after[id] == if beliefs[id].hypothesisId == row.hypothesisId then beliefs[id].(isCurrent := false)
             else beliefs[id]
  }

  lemma UpsertGrows(t: Tables, directory: string -> S.Auth, row: Belief)
    requires Owned(directory, t) && Follows(t, row.hypothesisId, row.key) && row.id !in t.beliefs && row.isCurrent
    ensures Grown(t.beliefs, row, UpsertBelief(t.beliefs, row))
  {
    UpsertIsReplay(t, row);
  }

  lemma OtherChainStays(beliefs: map<string, Belief>, row: Belief, after: map<string, Belief>, h: string,
                        ids: seq<string>)
    requires Grown(beliefs, row, after) && IsChain(beliefs, h, ids) && row.hypothesisId != h
    ensures IsChain(after, h, ids)
  {
    hide LinksTo;
    forall i | 0 <= i < |ids| ensures ids[i] in after && after[ids[i]] == beliefs[ids[i]] {
      HypothesisOfLink(beliefs, h, ids, i);
    }
  }

  lemma HypothesisOfLink(beliefs: map<string, Belief>, h: string, ids: seq<string>, i: nat)
    requires i < |ids| && ids[i] in beliefs && LinksTo(beliefs[ids[i]], h, ids, i)
    ensures beliefs[ids[i]].hypothesisId == h
  {}

  /** A belief written after a chain extends it exactly when it points at the chain's last belief. */
  lemma BeliefExtends(beliefs: map<string, Belief>, row: Belief, after: map<string, Belief>, next: nat,
                      ids: seq<string>)
    requires Grown(beliefs, row, after) && IsChain(beliefs, row.hypothesisId, ids) && row.position >= next
    requires forall id :: id in beliefs ==> beliefs[id].position < next
    ensures IsChain(after, row.hypothesisId, ids + [row.id]) <==> row.previousBeliefId == LastOf(ids)
  {
    hide IsChain, Grown;
    var h, longer := row.hypothesisId, ids + [row.id];
    forall i | 0 <= i < |ids|
      ensures longer[i] in after && LinksTo(after[longer[i]], h, longer, i) && after[longer[i]].position < next
    {
      OldLink(beliefs, row, after, next, ids, i);
    }
    LastLink(beliefs, row, after, ids);
    GrownChain(beliefs, row, after, next, ids);
  }

  lemma OldLink(beliefs: map<string, Belief>, row: Belief, after: map<string, Belief>, next: nat, ids: seq<string>,
                i: nat)
    requires Grown(beliefs, row, after) && IsChain(beliefs, row.hypothesisId, ids) && i < |ids|
    requires forall id :: id in beliefs ==> beliefs[id].position < next
    ensures ids[i] in beliefs && (ids + [row.id])[i] == ids[i] && ids[i] in after
            && after[ids[i]].position == beliefs[ids[i]].position < next
    ensures LinksTo(after[ids[i]], row.hypothesisId, ids + [row.id], i)
  {
    assert LinksTo(beliefs[ids[i]], row.hypothesisId, ids, i);
  }

  lemma LastLink(beliefs: map<string, Belief>, row: Belief, after: map<string, Belief>, ids: seq<string>)
    requires Grown(beliefs, row, after)
    ensures (ids + [row.id])[|ids|] == row.id && row.id in after && after[row.id] == row
    ensures LinksTo(row, row.hypothesisId, ids + [row.id], |ids|) <==> row.previousBeliefId == LastOf(ids)
  {}

  /** With every old link in place, the longer list is a chain exactly when its last link holds. */
  lemma GrownChain(beliefs: map<string, Belief>, row: Belief, after: map<string, Belief>, next: nat, ids: seq<string>)
    requires Grown(beliefs, row, after) && IsChain(beliefs, row.hypothesisId, ids) && row.position >= next
    requires var longer := ids + [row.id];
             forall i :: 0 <= i < |ids| ==> longer[i] in after && LinksTo(after[longer[i]], row.hypothesisId, longer, i)
                                            && after[longer[i]].position < next
    ensures IsChain(after, row.hypothesisId, ids + [row.id]) <==> LinksTo(row, row.hypothesisId, ids + [row.id], |ids|)
  {
    hide LinksTo;
    var longer := ids + [row.id];
    assert longer[|ids|] == row.id;
    assert forall i :: 0 <= i < |ids| ==> longer[i] == ids[i] && beliefs[ids[i]].position == after[ids[i]].position;
    assert forall id :: id in ids ==> id in longer;
    assert row.id in longer;
    if IsChain(after, row.hypothesisId, longer) {
      assert LinksTo(after[longer[|ids|]], row.hypothesisId, longer, |ids|);
    }
  }

  /** Reading the current belief of a chained hypothesis returns the chain's last one. */
  lemma CurrentIsLast(t: Tables, directory: string -> S.Auth, auth: S.Auth, h: string, ids: seq<string>,
                      prior: Option<Belief>)
    requires Owned(directory, t) && IsChain(t.beliefs, h, ids) && h in t.hypotheses && Scoped(t.hypotheses[h].key, auth)
    requires ReadsCurrent(t.beliefs, auth, h, prior)
    ensures LastOf(ids) == if prior.Some? then Some(prior.value.id) else None
  {
    hide Owned, IsChain;
    ChainedIsCurrent(t, directory, auth, h, ids);
    if prior.Some? { OnlyLastIsCurrent(t.beliefs, h, ids, prior.value.id); }
  }

  lemma OnlyLastIsCurrent(beliefs: map<string, Belief>, h: string, ids: seq<string>, id: string)
    requires IsChain(beliefs, h, ids) && id in beliefs && beliefs[id].hypothesisId == h && beliefs[id].isCurrent
    ensures LastOf(ids) == Some(id)
  {
    hide LinksTo;
    assert id in ids;
    var i :| 0 <= i < |ids| && ids[i] == id;
    CurrentLink(beliefs, h, ids, i);
  }

  lemma CurrentLink(beliefs: map<string, Belief>, h: string, ids: seq<string>, i: nat)
    requires i < |ids| && ids[i] in beliefs && LinksTo(beliefs[ids[i]], h, ids, i)
    ensures beliefs[ids[i]].isCurrent <==> i == |ids| - 1
  {}

  lemma ChainedIsCurrent(t: Tables, directory: string -> S.Auth, auth: S.Auth, h: string, ids: seq<string>)
    requires Owned(directory, t) && IsChain(t.beliefs, h, ids) && h in t.hypotheses && Scoped(t.hypotheses[h].key, auth)
    ensures |ids| > 0 ==> ids[|ids| - 1] in t.beliefs && IsCurrentOf(t.beliefs[ids[|ids| - 1]], auth, h)
  {
    if |ids| > 0 {
      assert LinksTo(t.beliefs[ids[|ids| - 1]], h, ids, |ids| - 1);
      assert Follows(t, h, t.beliefs[ids[|ids| - 1]].key);
    }
  }

  // ---- every atomic run ---------------------------------------------------------------------

  ghost predicate Chained(s: State) { forall h :: IsChain(s.tables.beliefs, h, Chain(s.ledger.log, h)) }

  lemma EvaluationGrows(directory: string -> S.Auth, seen: State, s: State, h: Hypothesis, c: Case, after: Tables)
    requires Mirror(directory, s) && Mirror(directory, seen) && Later(seen, s) && c.Valid()
             && directory(c.auth.applicationId) == c.auth
    requires FindExperiment(seen.tables, c.auth, c.x.id) == Some(c.x)
             && FindHypothesis(seen.tables, c.auth, c.x.hypothesisId) == Some(h)
    requires Unused(s.tables, c.ids.entities[1]) && after == TablesAfter(s, h, c)
    ensures Grown(s.tables.beliefs, NewBelief(c, s.ledger.next + 1), after.beliefs)
    ensures forall id :: id in s.tables.beliefs ==> s.tables.beliefs[id].position < s.ledger.next
  {
    hide Grown, Replay, TablesAfter, UpsertBelief, SameRows, Owned;
    SeenHypothesis(directory, seen, s, c.x.hypothesisId);
    SeenExperiment(directory, seen, s, c.x.id);
    ScopedIsKeyed(directory, c.auth, h.key);
    BeliefAndLearningRows(s, h, c);
    UpsertGrows(s.tables, directory, NewBelief(c, s.ledger.next + 1));
  }

  /** The belief an evaluation stores extends the chain exactly when the prior it read is still the chain's last one. */
  lemma EvaluationExtends(directory: string -> S.Auth, seen: State, s: State, h: Hypothesis, c: Case, t: State)
    requires Mirror(directory, s) && Mirror(directory, seen) && Later(seen, s) && c.Valid()
             && directory(c.auth.applicationId) == c.auth
    requires FindExperiment(seen.tables, c.auth, c.x.id) == Some(c.x)
             && FindHypothesis(seen.tables, c.auth, c.x.hypothesisId) == Some(h)
    requires Unused(s.tables, c.ids.entities[1]) && Chained(s)
    requires Appended(s.ledger, c.Drafts(), t.ledger) && t.tables == TablesAfter(s, h, c)
    ensures forall g :: g != c.x.hypothesisId ==> IsChain(t.tables.beliefs, g, Chain(t.ledger.log, g))
    ensures IsChain(t.tables.beliefs, c.x.hypothesisId, Chain(t.ledger.log, c.x.hypothesisId)) <==>
            LastOf(Chain(s.ledger.log, c.x.hypothesisId)) == if c.prior.Some? then Some(c.prior.value.id) else None
  {
    hide IsChain, Chain, Grown, Appended, Mirror, Later, Replay, TablesAfter, EvaluationDrafts, FindExperiment,
        FindHypothesis;
    EvaluationGrows(directory, seen, s, h, c, t.tables);
    var row := NewBelief(c, s.ledger.next + 1);
    ChainOfEvaluation(s.ledger, c, t.ledger, c.x.hypothesisId);
    BeliefExtends(s.tables.beliefs, row, t.tables.beliefs, s.ledger.next, Chain(s.ledger.log, c.x.hypothesisId));
    forall g | g != c.x.hypothesisId ensures IsChain(t.tables.beliefs, g, Chain(t.ledger.log, g)) {
      ChainOfEvaluation(s.ledger, c, t.ledger, g);
      OtherChainStays(s.tables.beliefs, row, t.tables.beliefs, g, Chain(s.ledger.log, g));
    }
  }

  lemma NoBeliefKeepsChains(s: State, drafts: seq<Draft>, t: State)
    requires Chained(s) && Appended(s.ledger, drafts, t.ledger) && t.tables.beliefs == s.tables.beliefs
    requires forall d :: d in drafts ==> !d.material.eventType.BeliefCreated? && !d.material.eventType.BeliefUpdated?
    ensures Chained(t)
  {
    hide IsChain, Chain;
    forall h ensures IsChain(t.tables.beliefs, h, Chain(t.ledger.log, h)) {
      ChainIgnores(s.ledger, drafts, t.ledger, |drafts|, h);
    }
  }

  lemma AtomicStepChains(directory: string -> S.Auth, s: State, step: Step, t: State)
    requires Next(directory, s, s, step, t) && Mirror(directory, s) && Chained(s)
    ensures Chained(t)
  {
    hide Mirror, Replay, Chained, S.AppendMany, TablesAfter, EvaluatedTables, EvaluationDrafts, Evaluate, Rebuild,
        Activate, Propose, Retire;
    var ids, now := step.ids, step.now;
    if t == s { return; }
    match step.action
    case DoPropose(auth, proposed, confirmed) => ProposalChains(s, auth, proposed, confirmed, ids, now);
    case DoActivate(auth, hypothesisId, p) => ActivationChains(s, s, NextVersion(s, auth, "Hypothesis", hypothesisId),
                                                               auth, hypothesisId, p, ids, now);
    case DoRetire(auth, hypothesisId, reason) => RetirementChains(s, s,
                                                                  NextVersion(s, auth, "Hypothesis", hypothesisId),
                                                                      auth, hypothesisId, reason, ids, now);
    case DoEvaluate(auth, experimentId, phase, a, prior) =>
      ReplayedChangesNothing(s, prior, s, auth, experimentId, phase, a, ids, now);
      var h, c := CaseOf(s, prior, s, auth, experimentId, phase, a, ids, now);
      CaseFinds(s, c, experimentId, directory);
      AtomicEvaluationChains(directory, s, h, c, t);
    case DoRebuild(order) =>
      RebuildMirrors(directory, s, order, ids, now);
      RebuildChains(directory, s, order, ids, now);
    case DoOther(drafts) =>
      AppendManyAppends(s.ledger, drafts);
      assert forall d :: d in drafts ==> !d.material.eventType.BeliefCreated? && !d.material.eventType.BeliefUpdated?;
      NoBeliefKeepsChains(s, drafts, t);
    case SetHead(_, _, _) => SameLogChains(s, t);
    case SkipTo(_) => SameLogChains(s, t);
  }

  lemma SameLogChains(s: State, t: State)
    requires Chained(s) && t.ledger.log == s.ledger.log && t.tables.beliefs == s.tables.beliefs
    ensures Chained(t)
  {}

  lemma ProposalChains(s: State, auth: S.Auth, proposed: Option<Parameters>, confirmed: bool, ids: Ids, now: Time)
    requires Chained(s) && |ids.entities| >= 1 && |ids.events| >= 1
             && Propose(s, auth, proposed, confirmed, ids, now).Ok?
    ensures Chained(Propose(s, auth, proposed, confirmed, ids, now).value)
  {
    hide Chained, S.AppendMany;
    var drafts := [DraftFor(auth, HypothesisProposed, "Hypothesis", ids.entities[0], 1,
                            ProposalPayload(ids.entities[0], proposed, confirmed),
                            ids.events[0], ids.auditId, ids.requestId, Some(ids.key), now)];
    AppendManyAppends(s.ledger, drafts);
    NoBeliefKeepsChains(s, drafts, Propose(s, auth, proposed, confirmed, ids, now).value);
  }

  lemma RetirementChains(seen: State, s: State, version: nat, auth: S.Auth, hypothesisId: string, reason: string,
                         ids: Ids, now: Time)
    requires Chained(s) && |ids.events| >= 1 && Retire(seen, version, s, auth, hypothesisId, reason, ids, now).Ok?
    ensures Chained(Retire(seen, version, s, auth, hypothesisId, reason, ids, now).value)
  {
    hide Chained, S.AppendMany;
    var drafts := [DraftFor(auth, HypothesisRetired, "Hypothesis", hypothesisId, version,
                            RetirementPayload(hypothesisId, reason),
                            ids.events[0], ids.auditId, ids.requestId, Some(ids.key), now)];
    AppendManyAppends(s.ledger, drafts);
    NoBeliefKeepsChains(s, drafts, Retire(seen, version, s, auth, hypothesisId, reason, ids, now).value);
  }

  lemma ActivationChains(seen: State, s: State, version: nat, auth: S.Auth, hypothesisId: string, p: Parameters,
                         ids: Ids, now: Time)
    requires Chained(s) && |ids.entities| >= 1 && |ids.events| >= 3
             && Activate(seen, version, s, auth, hypothesisId, p, ids, now).Ok?
    ensures Chained(Activate(seen, version, s, auth, hypothesisId, p, ids, now).value)
  {
    hide Chained, S.AppendMany;
    AppendManyAppends(s.ledger, ActivationDrafts(auth, version, hypothesisId, p, ids, now));
    NoBeliefKeepsChains(s, ActivationDrafts(auth, version, hypothesisId, p, ids, now),
                        Activate(seen, version, s, auth, hypothesisId, p, ids, now).value);
  }

  lemma RebuildChains(directory: string -> S.Auth, s: State, order: seq<Belief>, ids: Ids, now: Time)
    requires Mirror(directory, s) && Chained(s) && |ids.events| >= 1 && Rebuild(s, order, ids, now).Ok?
    requires Rebuild(s, order, ids, now).value.tables == Replay(s.ledger.log)
    ensures Chained(Rebuild(s, order, ids, now).value)
  {
    hide Chained, Replay, WriteAll, LatestVersion, HasEventId;
    var d := RebuildDraft(s, ids, now);
    assert [d][..0] == [];
    assert S.AppendMany(s.ledger, [d]) == AppendOne(s.ledger, d);
    AppendManyAppends(s.ledger, [d]);
    NoBeliefKeepsChains(s, [d], Rebuild(s, order, ids, now).value);
  }

  lemma AtomicEvaluationChains(directory: string -> S.Auth, s: State, h: Hypothesis, c: Case, t: State)
    requires Mirror(directory, s) && Chained(s) && c.Valid() && directory(c.auth.applicationId) == c.auth
    requires FindExperiment(s.tables, c.auth, c.x.id) == Some(c.x)
             && FindHypothesis(s.tables, c.auth, c.x.hypothesisId) == Some(h)
    requires Unused(s.tables, c.ids.entities[1]) && ReadsCurrent(s.tables.beliefs, c.auth, c.x.hypothesisId, c.prior)
    requires Appended(s.ledger, c.Drafts(), t.ledger) && t.tables == TablesAfter(s, h, c)
    ensures Chained(t)
  {
    hide IsChain, Chain, Appended, Replay, TablesAfter, EvaluationDrafts, Owned, SameRows, Ranked, ReadsCurrent;
    LaterItself(directory, s, s);
    EvaluationExtends(directory, s, s, h, c, t);
    CurrentIsLast(s.tables, directory, c.auth, c.x.hypothesisId, Chain(s.ledger.log, c.x.hypothesisId), c.prior);
  }

  /**
   * In every run of atomic transactions the beliefs about a hypothesis form one chain by their
   * previous belief, in log order, whose last element is the only current one and has the greatest position.
   */
  lemma {:induction false} BeliefsFormOneChain(directory: string -> S.Auth, trace: seq<State>, steps: seq<Step>, i: nat,
                                               h: string)
    requires Run(directory, trace, steps) && Atomic(steps) && i < |trace|
    ensures IsChain(trace[i].tables.beliefs, h, Chain(trace[i].ledger.log, h))
  {
    ChainedThroughout(directory, trace, steps, i);
  }

  lemma {:induction false} ChainedThroughout(directory: string -> S.Auth, trace: seq<State>, steps: seq<Step>, i: nat)
    requires Run(directory, trace, steps) && Atomic(steps) && i < |trace|
    ensures Chained(trace[i])
  {
    hide Mirror;
    if i > 0 {
      hide Chained;
      ChainedThroughout(directory, trace, steps, i - 1);
      MirrorThroughout(directory, trace, steps, i - 1, i - 1);
      AtomicStepChains(directory, trace[i - 1], steps[i - 1], trace[i]);
    }
  }
}
