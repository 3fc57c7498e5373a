/** The read model the transactions keep, against the read model a replay of the log yields. */
module EpistemicMirror {
  import opened Common
  import opened Ledger
  import opened Evaluation
  import opened Submission
  import opened Epistemic
  import opened EpistemicRuns

  // ---- writing beliefs back -----------------------------------------------------------------

  /** Some later row of the list belongs to the same chain. */
  predicate Superseded(order: seq<Belief>, i: nat)
    requires i < |order|
  {
    exists j :: i < j < |order| && SameChain(order[i], order[j])
  }

  lemma UpsertAt(beliefs: map<string, Belief>, row: Belief)
    ensures UpsertBelief(beliefs, row).Keys == beliefs.Keys + {row.id} && UpsertBelief(beliefs, row)[row.id] == row
    ensures forall id :: id in beliefs && id != row.id ==>
              UpsertBelief(beliefs, row)[id] == if SameChain(beliefs[id], row) then Demote(beliefs[id]) else beliefs[id]
  {}

  /** Written in order, a row stays current only if no later row of its chain follows. */
  lemma {:induction false} WriteAllMeaning(order: seq<Belief>)
    requires forall i, j :: 0 <= i < j < |order| ==> order[i].id != order[j].id
    ensures forall id :: id in WriteAll(order) <==> exists i :: 0 <= i < |order| && order[i].id == id
    ensures forall i :: 0 <= i < |order| ==>
              WriteAll(order)[order[i].id] == if Superseded(order, i) then Demote(order[i]) else order[i]
  {
    if |order| == 0 { return; }
    hide UpsertBelief, SameChain, Superseded, Demote;
    var n := |order| - 1;
    var init, last := order[..n], order[n];
    WriteAllMeaning(init);
    UpsertAt(WriteAll(init), last);
    forall i | 0 <= i <= n
      ensures order[i].id in WriteAll(order)
      ensures WriteAll(order)[order[i].id] == if Superseded(order, i) then Demote(order[i]) else order[i]
    {
      WrittenRow(order, i);
    }
    forall id | id in WriteAll(order) ensures exists i :: 0 <= i < |order| && order[i].id == id {
      if id == last.id {
        assert order[n].id == id;
      } else {
        assert id in WriteAll(init);
        var i :| 0 <= i < n && init[i].id == id;
        assert order[i].id == id;
      }
    }
  }

  /** One row of the list, from what writing the others before the last did. */
  lemma WrittenRow(order: seq<Belief>, i: nat)
    requires i < |order| && forall j :: i < j < |order| ==> order[i].id != order[j].id
    requires var init := order[..|order| - 1];
             i < |init| ==> && init[i].id in WriteAll(init)
                            && WriteAll(init)[init[i].id] == if Superseded(init, i) then Demote(init[i]) else init[i]
    ensures order[i].id in WriteAll(order)
    ensures WriteAll(order)[order[i].id] == if Superseded(order, i) then Demote(order[i]) else order[i]
  {
    hide UpsertBelief, SameChain, Superseded, Demote;
    var n := |order| - 1;
    UpsertAt(WriteAll(order[..n]), order[n]);
    SupersededSplits(order, i);
    if i < n {
      assert order[..n][i] == order[i];
      Demotion(order[i], order[n]);
      Demotion(Demote(order[i]), order[n]);
    }
  }

  lemma SupersededSplits(order: seq<Belief>, i: nat)
    requires i < |order|
    ensures var n := |order| - 1;
            Superseded(order, i) <==> i < n && (Superseded(order[..n], i) || SameChain(order[i], order[n]))
  {
    hide SameChain;
    var n := |order| - 1;
    if i < n && Superseded(order[..n], i) {
      var j :| i < j < n && SameChain(order[..n][i], order[..n][j]);
      assert SameChain(order[i], order[j]);
    }
    if Superseded(order, i) {
      var j :| i < j < |order| && SameChain(order[i], order[j]);
      if j < n { assert SameChain(order[..n][i], order[..n][j]); }
    }
  }

  lemma Demotion(b: Belief, row: Belief)
    ensures Demote(b).id == b.id && Demote(b).position == b.position && !Demote(b).isCurrent
    ensures SameChain(Demote(b), row) == SameChain(b, row) == SameChain(row, Demote(b)) == SameChain(row, b)
    ensures !b.isCurrent ==> Demote(b) == b
  {}

  /**
   * Writing a table of beliefs and reading it back gives the same table exactly when every current belief is
   * the last of its chain.
   */
  lemma WriteReadBack(order: seq<Belief>, beliefs: map<string, Belief>)
    requires ListsBeliefs(order, beliefs)
    requires forall id :: id in beliefs ==> beliefs[id].id == id
    ensures WriteAll(order) == beliefs <==> forall i :: 0 <= i < |order| && order[i].isCurrent ==> !Superseded(order, i)
  {
    hide WriteAll, Superseded, SameChain, Demote;
    WriteAllMeaning(order);
    var written := WriteAll(order);
    forall id ensures id in beliefs ==> id in written && exists i :: 0 <= i < |order| && order[i] == beliefs[id] {
      if id in beliefs {
        assert beliefs[id] in order;
        var i :| 0 <= i < |order| && order[i] == beliefs[id];
        assert order[i].id == id;
      }
    }
    assert written.Keys == beliefs.Keys;
    if forall i :: 0 <= i < |order| && order[i].isCurrent ==> !Superseded(order, i) {
      forall id | id in beliefs ensures written[id] == beliefs[id] {
        var i :| 0 <= i < |order| && order[i] == beliefs[id];
        Demotion(order[i], order[i]);
      }
      assert written == beliefs;
    } else {
      var i :| 0 <= i < |order| && order[i].isCurrent && Superseded(order, i);
      Demotion(order[i], order[i]);
      assert !written[order[i].id].isCurrent;
    }
  }

  /** Each current belief stands after every other belief of its chain, and all of them in the log. */
  ghost predicate Ranked(beliefs: map<string, Belief>, next: nat) {
    && (forall id :: id in beliefs ==> beliefs[id].id == id && beliefs[id].position < next)
    && (forall a, b ::
        a in beliefs && b in beliefs && a != b && SameChain(beliefs[a], beliefs[b]) && beliefs[a].isCurrent ==>
          beliefs[b].position < beliefs[a].position)
  }

  lemma RankedReadsBack(order: seq<Belief>, beliefs: map<string, Belief>, next: nat)
    requires ListsBeliefs(order, beliefs) && Ranked(beliefs, next)
    ensures WriteAll(order) == beliefs
  {
    WriteReadBack(order, beliefs);
  }

  // ---- the mirror ---------------------------------------------------------------------------

  /**
   * Live and replayed rows: beliefs and learning in every field, hypotheses and experiments in what
   * identifies and fixes them.
   */
  ghost predicate SameRows(live: Tables, replayed: Tables) {
    && live.beliefs == replayed.beliefs && live.learning == replayed.learning
    && live.hypotheses.Keys == replayed.hypotheses.Keys && live.experiments.Keys == replayed.experiments.Keys
    && (forall id :: id in live.hypotheses ==> SameHypothesis(id, live.hypotheses[id], replayed.hypotheses[id]))
    && (forall id :: id in live.experiments ==> SameExperiment(id, live.experiments[id], replayed.experiments[id]))
  }

  predicate SameHypothesis(id: string, h: Hypothesis, g: Hypothesis) { h.id == id == g.id && h.key == g.key }

  predicate SameExperiment(id: string, x: Experiment, y: Experiment) {
    x.id == id == y.id && x.key == y.key && x.hypothesisId == y.hypothesisId && x.protocol == y.protocol
  }

  /** Keys come from the directory; experiments and beliefs belong to the owner of their hypothesis. */
  ghost predicate Owned(directory: string -> Auth, t: Tables) {
    && (forall id :: id in t.hypotheses ==> Listed(directory, t.hypotheses[id].key))
    && (forall id :: id in t.experiments ==> Follows(t, t.experiments[id].hypothesisId, t.experiments[id].key))
    && (forall id :: id in t.beliefs ==> Follows(t, t.beliefs[id].hypothesisId, t.beliefs[id].key))
  }

  predicate Listed(directory: string -> Auth, k: StreamKey) {
    directory(k.applicationId).Key() == k && directory(k.applicationId).applicationId == k.applicationId
  }

  predicate Follows(t: Tables, hypothesisId: string, k: StreamKey) {
    hypothesisId in t.hypotheses && t.hypotheses[hypothesisId].key == k
  }

  ghost predicate Mirror(directory: string -> Auth, s: State) {
    && SameRows(s.tables, Replay(s.ledger.log)) && Owned(directory, s.tables)
    && Ranked(s.tables.beliefs, s.ledger.next)
  }

  /** Nothing that identifies or fixes a row changes, and no row goes. */
  ghost predicate Later(a: State, b: State) {
    && a.ledger.log <= b.ledger.log && a.ledger.next <= b.ledger.next
    && (forall id :: id in a.tables.hypotheses ==>
          id in b.tables.hypotheses && SameHypothesis(id, b.tables.hypotheses[id], a.tables.hypotheses[id]))
    && (forall id :: id in a.tables.experiments ==>
          id in b.tables.experiments && SameExperiment(id, b.tables.experiments[id], a.tables.experiments[id]))
  }

  lemma ScopedIsKeyed(directory: string -> Auth, auth: Auth, k: StreamKey)
    requires directory(auth.applicationId) == auth && Listed(directory, k) && Scoped(k, auth)
    ensures k == auth.Key()
  {}

  /** For beliefs of one hypothesis the store demotes what replay demotes. */
  lemma UpsertIsReplay(t: Tables, row: Belief)
    requires Follows(t, row.hypothesisId, row.key)
    requires forall id :: id in t.beliefs ==> Follows(t, t.beliefs[id].hypothesisId, t.beliefs[id].key)
    requires row.isCurrent
    ensures UpsertBelief(t.beliefs, row) == Demoted(t.beliefs, row.hypothesisId)[row.id := row]
  {}

  lemma UpsertKeepsRank(beliefs: map<string, Belief>, next: nat, row: Belief, after: nat)
    requires Ranked(beliefs, next) && next <= row.position < after && row.id !in beliefs
    ensures Ranked(UpsertBelief(beliefs, row), after)
  {
    hide UpsertBelief, SameChain, Demote, Ranked;
    UpsertAt(beliefs, row);
    var more := UpsertBelief(beliefs, row);
    forall id | id in more ensures more[id].id == id && more[id].position < after {
      PlaceKept(beliefs, next, row, after, id);
    }
    forall a, b | a in more && b in more && a != b && SameChain(more[a], more[b]) && more[a].isCurrent
      ensures more[b].position < more[a].position
    {
      RankKept(beliefs, next, row, after, a, b);
    }
    RankedFrom(more, after);
  }

  lemma RankedFrom(beliefs: map<string, Belief>, next: nat)
    requires forall id :: id in beliefs ==> beliefs[id].id == id && beliefs[id].position < next
    requires forall a, b ::
               a in beliefs && b in beliefs && a != b && SameChain(beliefs[a], beliefs[b]) && beliefs[a].isCurrent ==>
               beliefs[b].position < beliefs[a].position
    ensures Ranked(beliefs, next)
  {
    hide SameChain;
  }

  lemma PlaceKept(beliefs: map<string, Belief>, next: nat, row: Belief, after: nat, id: string)
    requires Ranked(beliefs, next) && next <= row.position < after && id in UpsertBelief(beliefs, row)
    ensures UpsertBelief(beliefs, row)[id].id == id && UpsertBelief(beliefs, row)[id].position < after
  {
    hide UpsertBelief, Demote, SameChain;
    UpsertAt(beliefs, row);
    if id != row.id { Demotion(beliefs[id], row); }
  }

  lemma RankKept(beliefs: map<string, Belief>, next: nat, row: Belief, after: nat, a: string, b: string)
    requires Ranked(beliefs, next) && next <= row.position < after && row.id !in beliefs
    requires a in UpsertBelief(beliefs, row) && b in UpsertBelief(beliefs, row) && a != b
    requires SameChain(UpsertBelief(beliefs, row)[a], UpsertBelief(beliefs, row)[b])
             && UpsertBelief(beliefs, row)[a].isCurrent
    ensures UpsertBelief(beliefs, row)[b].position < UpsertBelief(beliefs, row)[a].position
  {
    hide UpsertBelief, Demote, SameChain;
    UpsertAt(beliefs, row);
    if a == row.id {
      Demotion(beliefs[b], row);
    } else {
      StillCurrent(beliefs, row, a, b);
    }
  }

  /** A belief still current after the upsert is in another chain than the new row, and ranks as before. */
  lemma StillCurrent(beliefs: map<string, Belief>, row: Belief, a: string, b: string)
    requires a in beliefs && a != row.id && (b in beliefs || b == row.id)
    requires UpsertBelief(beliefs, row)[a].isCurrent
             && SameChain(UpsertBelief(beliefs, row)[a], UpsertBelief(beliefs, row)[b])
    ensures b in beliefs && b != row.id && beliefs[a].isCurrent && SameChain(beliefs[a], beliefs[b])
    ensures UpsertBelief(beliefs, row)[a] == beliefs[a] && UpsertBelief(beliefs, row)[b] == beliefs[b]
  {
    hide UpsertBelief, Demote;
    UpsertAt(beliefs, row);
    Demotion(beliefs[a], row);
    if b in beliefs { Demotion(beliefs[b], row); }
  }

  // ---- changes of rows ----------------------------------------------------------------------

  /** One hypothesis written on both sides, its key kept. */
  lemma HypothesisWritten(directory: string -> Auth, live: Tables, replayed: Tables, h: Hypothesis, g: Hypothesis,
                          live': Tables, replayed': Tables)
    requires SameRows(live, replayed) && Owned(directory, live) && SameHypothesis(h.id, h, g)
             && Listed(directory, h.key)
    requires h.id in live.hypotheses ==> live.hypotheses[h.id].key == h.key
    requires live'.hypotheses == live.hypotheses[h.id := h] && replayed'.hypotheses == replayed.hypotheses[h.id := g]
    requires live'.experiments == live.experiments && replayed'.experiments == replayed.experiments
    requires live'.beliefs == live.beliefs && replayed'.beliefs == replayed.beliefs
    requires live'.learning == live.learning && replayed'.learning == replayed.learning
    ensures SameRows(live', replayed') && Owned(directory, live')
  {
    hide Listed, SameExperiment;
  }

  /** One experiment written on both sides; an earlier row of the same id keeps what it fixes. */
  lemma ExperimentWritten(directory: string -> Auth, live: Tables, replayed: Tables, x: Experiment, y: Experiment,
                          live': Tables, replayed': Tables)
    requires SameRows(live, replayed) && Owned(directory, live) && SameExperiment(x.id, x, y)
             && Follows(live, x.hypothesisId, x.key)
    requires live'.hypotheses == live.hypotheses && replayed'.hypotheses == replayed.hypotheses
    requires live'.experiments == live.experiments[x.id := x]
             && replayed'.experiments == replayed.experiments[x.id := y]
    requires live'.beliefs == live.beliefs && replayed'.beliefs == replayed.beliefs
    requires live'.learning == live.learning && replayed'.learning == replayed.learning
    ensures SameRows(live', replayed') && Owned(directory, live')
  {
    hide Listed, SameHypothesis;
  }

  /** The belief written live, demoting its chain, against the belief replayed, demoting its hypothesis. */
  lemma BeliefWritten(directory: string -> Auth, live: Tables, replayed: Tables, row: Belief, live': Tables,
                      replayed': Tables)
    requires SameRows(live, replayed) && Owned(directory, live) && Follows(live, row.hypothesisId, row.key)
             && row.isCurrent
    requires live'.hypotheses == live.hypotheses && replayed'.hypotheses == replayed.hypotheses
    requires live'.experiments == live.experiments && replayed'.experiments == replayed.experiments
    requires live'.beliefs == UpsertBelief(live.beliefs, row)
    requires replayed'.beliefs == Demoted(replayed.beliefs, row.hypothesisId)[row.id := row]
    requires live'.learning == live.learning && replayed'.learning == replayed.learning
    ensures SameRows(live', replayed') && Owned(directory, live')
  {
    UpsertIsReplay(live, row);
  }

  lemma LearningWritten(directory: string -> Auth, live: Tables, replayed: Tables, row: Learning, live': Tables,
                        replayed': Tables)
    requires SameRows(live, replayed) && Owned(directory, live) && row.id !in live.learning
    requires live'.hypotheses == live.hypotheses && replayed'.hypotheses == replayed.hypotheses
    requires live'.experiments == live.experiments && replayed'.experiments == replayed.experiments
    requires live'.beliefs == live.beliefs && replayed'.beliefs == replayed.beliefs
    requires live'.learning == AppendLearning(live.learning, row)
             && replayed'.learning == replayed.learning[row.id := row]
    ensures SameRows(live', replayed') && Owned(directory, live')
  {}

  lemma RanksLater(beliefs: map<string, Belief>, next: nat, later: nat)
    requires Ranked(beliefs, next) && next <= later
    ensures Ranked(beliefs, later)
  {}

  /** Rows written over a table keep what identifies and fixes the earlier ones. */
  lemma LaterWrites(a: State, b: State, replayed: Tables)
    requires SameRows(a.tables, replayed) && a.ledger.log <= b.ledger.log && a.ledger.next <= b.ledger.next
    requires b.tables.hypotheses == a.tables.hypotheses
             || exists h :: HypothesisOver(a.tables, h) && b.tables.hypotheses == a.tables.hypotheses[h.id := h]
    requires b.tables.experiments == a.tables.experiments
             || exists x :: ExperimentOver(a.tables, x) && b.tables.experiments == a.tables.experiments[x.id := x]
    ensures Later(a, b)
  {}

  predicate HypothesisOver(t: Tables, h: Hypothesis) {
    h.id in t.hypotheses ==> SameHypothesis(h.id, h, t.hypotheses[h.id])
  }

  predicate ExperimentOver(t: Tables, x: Experiment) {
    x.id in t.experiments ==> SameExperiment(x.id, x, t.experiments[x.id])
  }

  // ---- each transaction ---------------------------------------------------------------------

  lemma ProposeMirrors(directory: string -> Auth, s: State, auth: Auth, proposed: Option<Parameters>, confirmed: bool,
                       ids: Ids, now: Time)
    requires Mirror(directory, s) && directory(auth.applicationId) == auth && |ids.entities| >= 1 && |ids.events| >= 1
    requires ids.entities[0] !in s.tables.hypotheses
    requires Propose(s, auth, proposed, confirmed, ids, now).Ok?
    ensures var t := Propose(s, auth, proposed, confirmed, ids, now).value; Mirror(directory, t) && Later(s, t)
  {
    hide AppendMany, Replay, SameRows, Owned, Ranked;
    var id := ids.entities[0];
    var t := Propose(s, auth, proposed, confirmed, ids, now).value;
    var drafts := [DraftFor(auth, HypothesisProposed, "Hypothesis", id, 1, ProposalPayload(id, proposed, confirmed),
                            ids.events[0], ids.auditId, ids.requestId, Some(ids.key), now)];
    AppendManyAppends(s.ledger, drafts);
    ReplayOfOne(s.ledger, drafts, t.ledger);
    var e := t.ledger.log[|s.ledger.log|];
    HypothesisWritten(directory, s.tables, Replay(s.ledger.log), t.tables.hypotheses[id],
                      OnProposed(NO_ROWS, e).hypotheses[id],
                      t.tables, Replay(t.ledger.log));
    RanksLater(s.tables.beliefs, s.ledger.next, t.ledger.next);
    assert HypothesisOver(s.tables, t.tables.hypotheses[id]);
    LaterWrites(s, t, Replay(s.ledger.log));
  }

  lemma SeenHypothesis(directory: string -> Auth, seen: State, s: State, id: string)
    requires Mirror(directory, s) && Mirror(directory, seen) && Later(seen, s) && id in seen.tables.hypotheses
    ensures id in s.tables.hypotheses && id in Replay(s.ledger.log).hypotheses
    ensures seen.tables.hypotheses[id].id == id && s.tables.hypotheses[id].id == id
    ensures seen.tables.hypotheses[id].key == s.tables.hypotheses[id].key == Replay(s.ledger.log).hypotheses[id].key
    ensures Replay(s.ledger.log).hypotheses[id].id == id && Listed(directory, s.tables.hypotheses[id].key)
  {
    hide Replay, Listed, Ranked;
  }

  lemma RetireMirrors(directory: string -> Auth, seen: State, version: nat, s: State, auth: Auth, hypothesisId: string,
                      reason: string, ids: Ids, now: Time)
    requires Mirror(directory, s) && Mirror(directory, seen) && Later(seen, s) && |ids.events| >= 1
    requires Retire(seen, version, s, auth, hypothesisId, reason, ids, now).Ok?
    ensures var t := Retire(seen, version, s, auth, hypothesisId, reason, ids, now).value;
            Mirror(directory, t) && Later(s, t)
  {
    hide AppendMany, Replay, SameRows, Owned, Ranked, Listed;
    var t := Retire(seen, version, s, auth, hypothesisId, reason, ids, now).value;
    var drafts := [DraftFor(auth, HypothesisRetired, "Hypothesis", hypothesisId, version,
                            RetirementPayload(hypothesisId, reason),
                            ids.events[0], ids.auditId, ids.requestId, Some(ids.key), now)];
    AppendManyAppends(s.ledger, drafts);
    ReplayOfOne(s.ledger, drafts, t.ledger);
    SeenHypothesis(directory, seen, s, hypothesisId);
    var replayed := Replay(s.ledger.log);
    var e := t.ledger.log[|s.ledger.log|];
    HypothesisWritten(directory, s.tables, replayed, t.tables.hypotheses[hypothesisId],
                      OnRetired(replayed, e).hypotheses[hypothesisId],
                      t.tables, Replay(t.ledger.log));
    RanksLater(s.tables.beliefs, s.ledger.next, t.ledger.next);
    assert HypothesisOver(s.tables, t.tables.hypotheses[hypothesisId]);
    LaterWrites(s, t, replayed);
  }

  /** What the three activation events do to the replayed rows. */
  lemma ActivationReplay(before: Ledger, auth: Auth, version: nat, hypothesisId: string, p: Parameters, ids: Ids,
                         now: Time, after: Ledger)
    returns (g: Hypothesis, y: Experiment)
    requires |ids.entities| >= 1 && |ids.events| >= 3
    requires Appended(before, ActivationDrafts(auth, version, hypothesisId, p, ids, now), after)
    requires hypothesisId in Replay(before.log).hypotheses
    ensures var a, b := Replay(before.log), Replay(after.log);
            && b.hypotheses == a.hypotheses[hypothesisId := g] && b.experiments == a.experiments[ids.entities[0] := y]
            && b.beliefs == a.beliefs && b.learning == a.learning
            && g == a.hypotheses[hypothesisId].(status := HypothesisStatus.ACTIVE, humanConfirmed := true,
                                                parameters := Some(p), activatedAt := Some(now),
                      experimentId := Some(ids.entities[0]), auditId := ids.auditId, eventId := ids.events[0],
                      position := before.next, updatedAt := now)
            && y.id == ids.entities[0] && y.key == auth.Key() && y.hypothesisId == hypothesisId
            && y.protocol == Protocol(now, now, p.prospectiveTarget, p.maximumWindowDays, PROSPECTIVE_GROUP,
                                      p.meaningfulDifference, p.sleepThreshold)
            && y.anchor == Anchor(ids.events[1], before.next + 1, now)
  {
    hide Replay;
    var drafts := ActivationDrafts(auth, version, hypothesisId, p, ids, now);
    ReplayOfTwo(before, drafts, after);
    ReplayOfThree(before, drafts, after);
    g := Replay(after.log).hypotheses[hypothesisId];
    y := Replay(after.log).experiments[ids.entities[0]];
  }

  lemma ActivateMirrors(directory: string -> Auth, seen: State, version: nat, s: State, auth: Auth,
                        hypothesisId: string, p: Parameters, ids: Ids, now: Time)
    requires Mirror(directory, s) && Mirror(directory, seen) && Later(seen, s) && |ids.entities| >= 1
             && |ids.events| >= 3
    requires directory(auth.applicationId) == auth && ids.entities[0] !in s.tables.experiments
    requires Activate(seen, version, s, auth, hypothesisId, p, ids, now).Ok?
    ensures var t := Activate(seen, version, s, auth, hypothesisId, p, ids, now).value;
            Mirror(directory, t) && Later(s, t)
  {
    hide AppendMany, Replay, SameRows, Owned, Ranked, Listed, ActivationDrafts;
    var t := Activate(seen, version, s, auth, hypothesisId, p, ids, now).value;
    AppendManyAppends(s.ledger, ActivationDrafts(auth, version, hypothesisId, p, ids, now));
    SeenHypothesis(directory, seen, s, hypothesisId);
    ScopedIsKeyed(directory, auth, seen.tables.hypotheses[hypothesisId].key);
    var g, y := ActivationReplay(s.ledger, auth, version, hypothesisId, p, ids, now, t.ledger);
    var replayed, replayed' := Replay(s.ledger.log), Replay(t.ledger.log);
    var mid, midReplayed := s.tables.(hypotheses := t.tables.hypotheses), replayed.(hypotheses := replayed'.hypotheses);
    HypothesisWritten(directory, s.tables, replayed, t.tables.hypotheses[hypothesisId], g, mid, midReplayed);
    ExperimentWritten(directory, mid, midReplayed, t.tables.experiments[ids.entities[0]], y, t.tables, replayed');
    RanksLater(s.tables.beliefs, s.ledger.next, t.ledger.next);
    assert HypothesisOver(s.tables, t.tables.hypotheses[hypothesisId]);
    assert ExperimentOver(s.tables, t.tables.experiments[ids.entities[0]]);
    LaterWrites(s, t, replayed);
  }

  /** A committed evaluation: everything it read, drew and found. */
  datatype Case = Case(x: Experiment, auth: Auth, phase: EvidencePhase, a: Assessment, d: Decision,
                       prior: Option<Belief>, ids: Ids, now: Time)
  {
    predicate Valid() {
      |ids.entities| >= 4 && |ids.events| >= 4
      && (d.terminal ==> phase.PROSPECTIVE_VALIDATION? && IsTerminalState(d.state))
    }

    function Drafts(): seq<Draft>
      requires Valid()
    {
      EvaluationDrafts(x, auth, phase, a, d, prior, ids, now)
    }
  }

  function NewBelief(c: Case, position: nat): Belief
    requires c.Valid()
  {
    BeliefRow(c.x, c.auth, c.phase, c.a, c.d, c.prior, c.ids, position, c.now)
  }

  function NewLearning(c: Case, position: nat): Learning
    requires c.Valid()
  {
    LearningRow(c.x, c.auth, c.a, c.prior, c.ids, position, c.now)
  }

  predicate SameCore(t: Tables, u: Tables) { t.hypotheses == u.hypotheses && t.experiments == u.experiments }

  lemma EvidenceDraft(c: Case)
    requires c.Valid()
    ensures var m := c.Drafts()[0].material;
            m.eventType.EvidenceEvaluated? && m.payload.EvidencePayload? && m.payload.evidenceId == c.ids.entities[0]
  {}

  lemma EvidenceEvent(c: Case, t: Tables, e: EngineEvent, position: nat)
    requires c.Valid() && IsDraft(e, c.Drafts()[0], position)
    ensures SameCore(Apply(t, e), t) && Apply(t, e).beliefs == t.beliefs && Apply(t, e).learning == t.learning
  {
    hide OnProposed, OnActivated, OnRetired, OnRegistered, WithStatus, OnBelief, OnLearning, EvaluationDrafts;
    EvidenceDraft(c);
  }

  /** The belief draft of an evaluation says what the belief row says. */
  lemma BeliefDraft(c: Case)
    requires c.Valid()
    ensures var b, m := NewBelief(c, 0), c.Drafts()[1].material;
            && (m.eventType == BeliefCreated || m.eventType == BeliefUpdated)
            && m.payload == BeliefPayload(b.id, b.hypothesisId, b.evidenceId, b.previousBeliefId, b.state, b.estimate,
                                          b.dataConfidence, b.conclusionConfidence)
            && m.Key() == b.key && m.occurredAt == b.createdAt && m.auditId == b.auditId && m.eventId == b.eventId
  {}

  lemma BeliefEvent(c: Case, t: Tables, e: EngineEvent, position: nat)
    requires c.Valid() && IsDraft(e, c.Drafts()[1], position)
    ensures SameCore(Apply(t, e), t) && Apply(t, e).learning == t.learning
    ensures Apply(t, e).beliefs == Demoted(t.beliefs, c.x.hypothesisId)[c.ids.entities[1] := NewBelief(c, position)]
  {
    hide Demoted, OnProposed, OnActivated, OnRetired, OnRegistered, WithStatus, OnEvidence, OnLearning,
        EvaluationDrafts;
    BeliefDraft(c);
    assert ReplayedBelief(e) == NewBelief(c, position);
  }

  lemma OutcomeEvent(c: Case, t: Tables, e: EngineEvent, position: nat)
    requires c.Valid() && c.d.terminal && |c.Drafts()| == 4 && IsDraft(e, c.Drafts()[2], position)
    ensures Apply(t, e) == t
  {
    hide OnProposed, OnActivated, OnRetired, OnRegistered, WithStatus, OnEvidence, OnBelief, OnLearning;
  }

  lemma LearningEvent(c: Case, t: Tables, e: EngineEvent, position: nat)
    requires c.Valid() && c.d.terminal && |c.Drafts()| == 4 && IsDraft(e, c.Drafts()[3], position)
    ensures Apply(t, e) == t.(learning := t.learning[c.ids.entities[3] := NewLearning(c, position)])
  {
    hide OnProposed, OnActivated, OnRetired, OnRegistered, WithStatus, OnEvidence, OnBelief;
    assert ReplayedLearning(e) == NewLearning(c, position);
  }

  lemma DraftCount(c: Case)
    requires c.Valid()
    ensures |c.Drafts()| == if c.d.terminal then 4 else 2
  {}

  /** What the events of an evaluation do to the replayed rows: the very rows the transaction writes. */
  lemma EvaluationReplay(before: Ledger, c: Case, after: Ledger)
    requires c.Valid() && Appended(before, c.Drafts(), after)
    ensures SameCore(Replay(after.log), Replay(before.log))
    ensures Replay(after.log).beliefs ==
            Demoted(Replay(before.log).beliefs, c.x.hypothesisId)[c.ids.entities[1] := NewBelief(c, before.next + 1)]
    ensures Replay(after.log).learning ==
            if c.d.terminal then Replay(before.log).learning[c.ids.entities[3] := NewLearning(c, before.next + 3)]
            else Replay(before.log).learning
  {
    hide Replay, Demoted, Apply, EvaluationDrafts, BeliefRow, LearningRow, IsDraft;
    var drafts, n, log := c.Drafts(), |before.log|, after.log;
    DraftCount(c);
    ReplayOfTwo(before, drafts, after);
    var t := Replay(before.log);
    EvidenceEvent(c, t, log[n], before.next);
    BeliefEvent(c, Apply(t, log[n]), log[n + 1], before.next + 1);
    if c.d.terminal {
      ReplayOfFour(before, drafts, after);
      var u := Apply(Apply(t, log[n]), log[n + 1]);
      OutcomeEvent(c, u, log[n + 2], before.next + 2);
      LearningEvent(c, u, log[n + 3], before.next + 3);
    }
  }

  function TablesAfter(s: State, h: Hypothesis, c: Case): Tables
    requires c.Valid()
  {
    EvaluatedTables(s, c.x, h, c.auth, c.phase, c.a, c.d, c.prior, c.ids, c.now)
  }

  lemma BeliefAndLearningRows(s: State, h: Hypothesis, c: Case)
    requires c.Valid()
    ensures TablesAfter(s, h, c).beliefs == UpsertBelief(s.tables.beliefs, NewBelief(c, s.ledger.next + 1))
    ensures TablesAfter(s, h, c).learning ==
            if c.d.terminal then AppendLearning(s.tables.learning, NewLearning(c, s.ledger.next + 3))
                else s.tables.learning
  {}

  lemma EvaluateMirrors(directory: string -> Auth, seen: State, s: State, h: Hypothesis, c: Case, t: State)
    requires Mirror(directory, s) && Mirror(directory, seen) && Later(seen, s) && c.Valid()
             && directory(c.auth.applicationId) == c.auth
    requires FindExperiment(seen.tables, c.auth, c.x.id) == Some(c.x)
             && FindHypothesis(seen.tables, c.auth, c.x.hypothesisId) == Some(h)
    requires c.ids.entities[3] !in s.tables.learning && c.ids.entities[1] !in s.tables.beliefs
    requires Appended(s.ledger, c.Drafts(), t.ledger) && t.tables == TablesAfter(s, h, c)
    ensures Mirror(directory, t) && Later(s, t)
  {
    hide Replay, SameRows, Owned, Ranked, Listed, EvaluationDrafts, UpsertBelief, AppendLearning, Demoted, TablesAfter;
    SeenHypothesis(directory, seen, s, c.x.hypothesisId);
    SeenExperiment(directory, seen, s, c.x.id);
    ScopedIsKeyed(directory, c.auth, h.key);
    CoreWritten(directory, s, h, c, t.tables);
    BeliefAndLearningRows(s, h, c);
    EvaluatedMirrors(directory, s, c, t);
    DraftCount(c);
    UpsertKeepsRank(s.tables.beliefs, s.ledger.next, NewBelief(c, s.ledger.next + 1), t.ledger.next);
    LaterWrites(s, t, Replay(s.ledger.log));
  }

  lemma EvaluatedMirrors(directory: string -> Auth, s: State, c: Case, t: State)
    requires c.Valid() && c.x.key == c.auth.Key() && c.ids.entities[3] !in s.tables.learning
    requires SameRows(s.tables, Replay(s.ledger.log)) && Appended(s.ledger, c.Drafts(), t.ledger)
    requires var m := s.tables.(hypotheses := t.tables.hypotheses, experiments := t.tables.experiments);
             SameRows(m, Replay(s.ledger.log)) && Owned(directory, m) && Follows(m, c.x.hypothesisId, c.x.key)
    requires t.tables.beliefs == UpsertBelief(s.tables.beliefs, NewBelief(c, s.ledger.next + 1))
    requires t.tables.learning == if c.d.terminal
               then AppendLearning(s.tables.learning, NewLearning(c, s.ledger.next + 3)) else s.tables.learning
    ensures SameRows(t.tables, Replay(t.ledger.log)) && Owned(directory, t.tables)
  {
    hide Replay, SameRows, Owned, EvaluationDrafts, UpsertBelief, AppendLearning, Demoted, Appended;
    EvaluationReplay(s.ledger, c, t.ledger);
    var replayed, replayed' := Replay(s.ledger.log), Replay(t.ledger.log);
    var m1 := s.tables.(hypotheses := t.tables.hypotheses, experiments := t.tables.experiments);
    var m2, r2 := m1.(beliefs := t.tables.beliefs), replayed.(beliefs := replayed'.beliefs);
    BeliefWritten(directory, m1, replayed, NewBelief(c, s.ledger.next + 1), m2, r2);
    if c.d.terminal {
      LearningWritten(directory, m2, r2, NewLearning(c, s.ledger.next + 3), t.tables, replayed');
    } else {
      SameRowsOf(directory, m2, r2, t.tables, replayed');
    }
  }

  /** The hypothesis and experiment rows an evaluation writes, from the rows it saw. */
  lemma CoreWritten(directory: string -> Auth, s: State, h: Hypothesis, c: Case, after: Tables)
    requires Mirror(directory, s) && c.Valid()
    requires after == TablesAfter(s, h, c)
    requires h.id == c.x.hypothesisId && h.id in s.tables.hypotheses && s.tables.hypotheses[h.id].key == h.key
    requires c.x.id in s.tables.experiments && SameExperiment(c.x.id, c.x, s.tables.experiments[c.x.id])
             && h.key == c.x.key
    ensures var m := s.tables.(hypotheses := after.hypotheses, experiments := after.experiments);
            && SameRows(m, Replay(s.ledger.log)) && Owned(directory, m)
            && Follows(m, c.x.hypothesisId, c.x.key)
    ensures exists h' :: HypothesisOver(s.tables, h') && after.hypotheses == s.tables.hypotheses[h'.id := h']
    ensures exists x' :: ExperimentOver(s.tables, x') && after.experiments == s.tables.experiments[x'.id := x']
  {
    hide Replay, UpsertBelief, AppendLearning, EvidenceRow, ExperimentStatus, Ranked, Listed;
    var replayed := Replay(s.ledger.log);
    var m := s.tables.(hypotheses := after.hypotheses);
    var h', x' := after.hypotheses[h.id], after.experiments[c.x.id];
    CoreUnchanged(directory, s.tables, replayed, h', x');
    assert HypothesisOver(s.tables, h') && after.hypotheses == s.tables.hypotheses[h'.id := h'];
    assert ExperimentOver(s.tables, x') && after.experiments == s.tables.experiments[x'.id := x'];
  }

  lemma CoreUnchanged(directory: string -> Auth, live: Tables, replayed: Tables, h: Hypothesis, x: Experiment)
    requires SameRows(live, replayed) && Owned(directory, live)
    requires h.id in live.hypotheses && live.hypotheses[h.id].key == h.key
    requires x.id in live.experiments && SameExperiment(x.id, x, live.experiments[x.id])
    ensures var m := live.(hypotheses := live.hypotheses[h.id := h], experiments := live.experiments[x.id := x]);
            SameRows(m, replayed) && Owned(directory, m)
  {
    hide SameRows, Owned;
    CoreAt(directory, live, replayed, h, x);
    var m := live.(hypotheses := live.hypotheses[h.id := h]);
    var g, y := replayed.hypotheses[h.id], replayed.experiments[x.id];
    HypothesisWritten(directory, live, replayed, h, g, m, replayed);
    ExperimentWritten(directory, m, replayed, x, y, m.(experiments := live.experiments[x.id := x]), replayed);
  }

  lemma CoreAt(directory: string -> Auth, live: Tables, replayed: Tables, h: Hypothesis, x: Experiment)
    requires SameRows(live, replayed) && Owned(directory, live)
    requires h.id in live.hypotheses && live.hypotheses[h.id].key == h.key
    requires x.id in live.experiments && SameExperiment(x.id, x, live.experiments[x.id])
    ensures h.id in replayed.hypotheses && SameHypothesis(h.id, h, replayed.hypotheses[h.id])
            && Listed(directory, h.key)
    ensures x.id in replayed.experiments && SameExperiment(x.id, x, replayed.experiments[x.id])
    ensures x.hypothesisId in live.hypotheses && live.hypotheses[x.hypothesisId].key == x.key
    ensures replayed.hypotheses == replayed.hypotheses[h.id := replayed.hypotheses[h.id]]
    ensures replayed.experiments == replayed.experiments[x.id := replayed.experiments[x.id]]
  {
    hide Listed;
    ExperimentOwner(directory, live, x.id);
  }

  lemma SameRowsOf(directory: string -> Auth, live: Tables, replayed: Tables, live': Tables, replayed': Tables)
    requires SameRows(live, replayed) && Owned(directory, live)
    requires live'.hypotheses == live.hypotheses && replayed'.hypotheses == replayed.hypotheses
    requires live'.experiments == live.experiments && replayed'.experiments == replayed.experiments
    requires live'.beliefs == live.beliefs && replayed'.beliefs == replayed.beliefs
    requires live'.learning == live.learning && replayed'.learning == replayed.learning
    ensures SameRows(live', replayed') && Owned(directory, live')
  {}

  lemma SeenExperiment(directory: string -> Auth, seen: State, s: State, id: string)
    requires Mirror(directory, s) && Mirror(directory, seen) && Later(seen, s) && id in seen.tables.experiments
    ensures id in s.tables.experiments && id in Replay(s.ledger.log).experiments
    ensures var x, y, z := seen.tables.experiments[id], s.tables.experiments[id], Replay(s.ledger.log).experiments[id];
            && SameExperiment(id, x, y) && SameExperiment(id, x, z)
            && x.hypothesisId in s.tables.hypotheses && Follows(s.tables, x.hypothesisId, x.key)
  {
    hide Replay, Listed, Ranked, SameHypothesis;
    ExperimentOwner(directory, s.tables, id);
  }

  lemma ExperimentOwner(directory: string -> Auth, t: Tables, id: string)
    requires Owned(directory, t) && id in t.experiments
    ensures Follows(t, t.experiments[id].hypothesisId, t.experiments[id].key)
  {}
}
