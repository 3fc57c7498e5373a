/** What the transactional append accepts, what it rejects and why, and what it leaves behind. */
module LedgerTheorems {
  import opened Common
  import opened Ledger

  /** The version is the next one of its aggregate: above every version recorded, and one above some. */
  ghost predicate InTurn(log: seq<EngineEvent>, a: Aggregate, version: nat) {
    && version > 0
    && (forall e :: e in log && e.material.AggregateRef() == a ==> e.material.aggregateVersion < version)
    && (version > 1 ==>
          exists e :: e in log && e.material.AggregateRef() == a && e.material.aggregateVersion == version - 1)
  }

  lemma {:induction false} LatestIsGreatest(log: seq<EngineEvent>, a: Aggregate)
    ensures forall e ::
              e in log && e.material.AggregateRef() == a ==> e.material.aggregateVersion <= LatestVersion(log, a)
    ensures LatestVersion(log, a) > 0 ==>
              exists e ::
                && e in log && e.material.AggregateRef() == a && e.material.aggregateVersion == LatestVersion(log, a)
  {
    if |log| > 0 {
      var init, last := log[..|log| - 1], log[|log| - 1];
      LatestIsGreatest(init, a);
      assert log == init + [last];
      assert last in log;
    }
  }

  lemma InTurnIsNext(log: seq<EngineEvent>, a: Aggregate, version: nat)
    ensures InTurn(log, a, version) <==> LatestVersion(log, a) + 1 == version
  {
    hide LatestVersion;
    LatestIsGreatest(log, a);
  }

  /** Another keyed event of the application holds the key; an empty key is no key. */
  ghost predicate KeyHeld(log: seq<EngineEvent>, d: Draft) {
    && d.idempotencyKey != None && d.idempotencyKey != Some("")
    && exists e ::
         && e in log && e.idempotencyKey == d.idempotencyKey
         && e.material.applicationId == d.material.applicationId
  }

  ghost predicate IdHeld(log: seq<EngineEvent>, id: string) { exists e :: e in log && e.material.eventId == id }

  lemma Held(log: seq<EngineEvent>, d: Draft)
    ensures KeyHeld(log, d) <==> KeyTaken(log, d.material.applicationId, d.idempotencyKey)
    ensures IdHeld(log, d.material.eventId) <==> HasEventId(log, d.material.eventId)
  {}

  /**
   * An append is rejected for the first of five causes that applies: a quarantined stream, a payload that does
   * not fit the event type, a version out of turn, an event id already recorded, a key another event holds.
   */
  lemma RejectionsExactly(l: Ledger, d: Draft)
    ensures var r, m := AppendOne(l, d), d.material;
            var k := StreamKey(m.tenantId, m.ownerId, m.applicationId);
            var quarantined := k in l.heads && l.heads[k].status == QUARANTINED;
            var fits := PayloadFits(m.eventType, m.payload);
            var turn := InTurn(l.log, Aggregate(k, m.aggregateType, m.aggregateId), m.aggregateVersion);
            && (r == Err(StreamQuarantined) <==> quarantined)
            && (r == Err(PayloadInvalid) <==> !quarantined && !fits)
            && (r == Err(ConcurrencyConflict) <==> !quarantined && fits && !turn)
            && (r == Err(DuplicateEventId) <==> !quarantined && fits && turn && IdHeld(l.log, m.eventId))
            && (r == Err(IdempotencyRace) <==>
                !quarantined && fits && turn && !IdHeld(l.log, m.eventId) && KeyHeld(l.log, d))
  {
    hide LatestVersion, HasEventId, KeyTaken, InTurn, KeyHeld, IdHeld, PayloadFits;
    InTurnIsNext(l.log, d.material.AggregateRef(), d.material.aggregateVersion);
    Held(l.log, d);
  }

  /**
   * An accepted append adds one event at the next position, hashed over its content and the head of its stream,
   * and moves that head onto it; no other head changes.
   */
  lemma AcceptedAppends(l: Ledger, d: Draft)
    requires AppendOne(l, d).Ok?
    ensures var r, k := AppendOne(l, d).value, d.material.Key();
            && |r.log| == |l.log| + 1 && l.log < r.log && r.next == l.next + 1
            && k in r.heads && r.heads == l.heads[k := r.heads[k]]
            && var e, h := r.log[|l.log|], r.heads[k];
               var before := if k in l.heads then l.heads[k] else StreamHead(0, None, None, 0, ACTIVE, None);
               && e.material == d.material && e.idempotencyKey == d.idempotencyKey && e.position == l.next
               && e.previousHash == before.hash && e.hash == Some(Sha(d.material, before.hash))
               && h.hash == e.hash && h.lastPosition == e.position && h.lastEventId == Some(d.material.eventId)
               && h.version == before.version + 1 && h.status == before.status
               && h.brokenEventId == before.brokenEventId
  {
    hide LatestVersion, HasEventId, KeyTaken;
  }

  /** A belief is recorded as updated only with its predecessor, and nothing outside the catalog is recorded. */
  lemma SchemasReject(l: Ledger, d: Draft)
    ensures var t, p := d.material.eventType, d.material.payload;
            t == BeliefUpdated && p.BeliefPayload? && p.previousBeliefId == None ==> AppendOne(l, d).Err?
    ensures d.material.eventType.Unregistered? ==> AppendOne(l, d).Err?
  {}
}
