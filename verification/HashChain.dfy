/**
 * Verification of one hash chain: the loop, what its verdict means event by event, and what a
 * passing chain says about the history behind it.
 */
module HashChain {
  import opened Common
  import opened Ledger

  /** The hash the next event must chain onto: the last hash recorded, or the anchor. */
  function Tip(events: seq<EngineEvent>, anchor: Option<Digest>): Option<Digest> {
    if |events| == 0 then anchor
    else
      var last := events[|events| - 1];
      if last.hash.Some? then last.hash else Tip(events[..|events| - 1], anchor)
  }

  /**
   * An event fits after the hash `before`: unhashed before the chain began, or hashed over its content and
   * `before`.
   */
  predicate Chains(e: EngineEvent, before: Option<Digest>) {
    if e.hash.None? then before.None?
    else e.hash.value == ComputeEventHash(e.material, e.previousHash) && e.previousHash == before
  }

  /** The id of the first event that does not fit after the tip of what precedes it. */
  function FirstBroken(events: seq<EngineEvent>, anchor: Option<Digest>): Option<string> {
    if |events| == 0 then None
    else
      var init, last := events[..|events| - 1], events[|events| - 1];
      var earlier := FirstBroken(init, anchor);
      if earlier.Some? then earlier
      else if Chains(last, Tip(init, anchor)) then None
      else Some(last.material.eventId)
  }

  predicate Passes(events: seq<EngineEvent>, anchor: Option<Digest>) { FirstBroken(events, anchor).None? }

  /** Event `i` fits after the tip of the events before it. */
  predicate Linked(events: seq<EngineEvent>, anchor: Option<Digest>, i: nat)
    requires i < |events|
  {
    Chains(events[i], Tip(events[..i], anchor))
  }

  /** Verification passes exactly when every event is linked, and otherwise names the least unlinked one. */
  lemma {:induction false} VerdictMeaning(events: seq<EngineEvent>, anchor: Option<Digest>)
    ensures Passes(events, anchor) <==> forall i :: 0 <= i < |events| ==> Linked(events, anchor, i)
    ensures !Passes(events, anchor) ==>
              exists i :: && 0 <= i < |events| && !Linked(events, anchor, i)
                          && FirstBroken(events, anchor) == Some(events[i].material.eventId)
                          && forall j :: 0 <= j < i ==> Linked(events, anchor, j)
  {
    var n := |events|;
    if n == 0 { return; }
    var init := events[..n - 1];
    VerdictMeaning(init, anchor);
    forall i | 0 <= i < n - 1 ensures Linked(events, anchor, i) <==> Linked(init, anchor, i) {
      assert init[..i] == events[..i];
    }
    assert Linked(events, anchor, n - 1) <==> Chains(events[n - 1], Tip(init, anchor));
  }

  method VerifyChain(events: seq<EngineEvent>, anchor: Option<Digest>) returns (ok: bool, broken: Option<string>)
    ensures broken == FirstBroken(events, anchor)
    ensures ok <==> broken.None?
  {
    var previousHash := anchor;
    var chainStarted := anchor.Some?;
    var n := 0;
    while n < |events|
      invariant 0 <= n <= |events|
      invariant previousHash == Tip(events[..n], anchor)
      invariant chainStarted <==> previousHash.Some?
      invariant Passes(events[..n], anchor)
    {
      var event := events[n];
      assert events[..n + 1][..n] == events[..n];
      assert events == events[..n + 1] + events[n + 1..];
      if event.hash.None? {
        if chainStarted {
          BrokenPrefixDecides(events[..n + 1], events[n + 1..], anchor);
          return false, Some(event.material.eventId);
        }
      } else {
        var expected := ComputeEventHash(event.material, event.previousHash);
        if event.hash.value != expected || event.previousHash != previousHash {
          BrokenPrefixDecides(events[..n + 1], events[n + 1..], anchor);
          return false, Some(event.material.eventId);
        }
        previousHash := event.hash;
        chainStarted := true;
      }
      n := n + 1;
    }
    assert events[..n] == events;
    return true, None;
  }

  // ---- resuming in the middle ---------------------------------------------------------------

  lemma {:induction false} TipOfConcat(a: seq<EngineEvent>, b: seq<EngineEvent>, anchor: Option<Digest>)
    ensures Tip(a + b, anchor) == Tip(b, Tip(a, anchor))
  {
    if |b| == 0 {
      assert a + b == a;
    } else {
      assert (a + b)[..|a + b| - 1] == a + b[..|b| - 1];
      TipOfConcat(a, b[..|b| - 1], anchor);
    }
  }

  /** A break in a prefix is the break of the whole. */
  lemma {:induction false} BrokenPrefixDecides(a: seq<EngineEvent>, b: seq<EngineEvent>, anchor: Option<Digest>)
    requires !Passes(a, anchor)
    ensures FirstBroken(a + b, anchor) == FirstBroken(a, anchor)
  {
    if |b| == 0 {
      assert a + b == a;
    } else {
      assert (a + b)[..|a + b| - 1] == a + b[..|b| - 1];
      BrokenPrefixDecides(a, b[..|b| - 1], anchor);
    }
  }

  /** Verifying a range after a passing prefix, anchored at the prefix's tip, is verifying the whole. */
  lemma {:induction false} VerificationSplits(a: seq<EngineEvent>, b: seq<EngineEvent>, anchor: Option<Digest>)
    requires Passes(a, anchor)
    ensures FirstBroken(a + b, anchor) == FirstBroken(b, Tip(a, anchor))
  {
    if |b| == 0 {
      assert a + b == a;
    } else {
      assert (a + b)[..|a + b| - 1] == a + b[..|b| - 1];
      VerificationSplits(a, b[..|b| - 1], anchor);
      TipOfConcat(a, b[..|b| - 1], anchor);
    }
  }

  lemma PrefixPasses(events: seq<EngineEvent>, n: nat, anchor: Option<Digest>)
    requires n <= |events| && Passes(events, anchor)
    ensures Passes(events[..n], anchor)
    ensures Passes(events[n..], Tip(events[..n], anchor))
  {
    assert events == events[..n] + events[n..];
    if !Passes(events[..n], anchor) {
      BrokenPrefixDecides(events[..n], events[n..], anchor);
    }
    VerificationSplits(events[..n], events[n..], anchor);
  }

  lemma VerdictOnOne(e: EngineEvent, rest: seq<EngineEvent>, anchor: Option<Digest>)
    ensures FirstBroken([e] + rest, anchor) ==
            if !Chains(e, anchor) then Some(e.material.eventId)
            else FirstBroken(rest, if e.hash.Some? then e.hash else anchor)
    ensures Tip([e], anchor) == if e.hash.Some? then e.hash else anchor
  {
    assert [e][..0] == [];
    if Chains(e, anchor) {
      VerificationSplits([e], rest, anchor);
    } else {
      BrokenPrefixDecides([e], rest, anchor);
    }
  }

  /** The verdict on a stream, read at one of its events. */
  lemma VerdictAt(events: seq<EngineEvent>, i: nat, f: EngineEvent, anchor: Option<Digest>)
    requires i < |events| && Passes(events[..i], anchor)
    ensures var before := Tip(events[..i], anchor);
            FirstBroken(events[i := f], anchor) ==
            if !Chains(f, before) then Some(f.material.eventId)
            else FirstBroken(events[i + 1..], if f.hash.Some? then f.hash else before)
  {
    assert events[i := f] == events[..i] + ([f] + events[i + 1..]);
    VerificationSplits(events[..i], [f] + events[i + 1..], anchor);
    VerdictOnOne(f, events[i + 1..], Tip(events[..i], anchor));
  }

  /** Appending onto the tip keeps a chain passing and moves the tip to the new hash. */
  lemma AppendKeepsPassing(events: seq<EngineEvent>, e: EngineEvent)
    requires Passes(events, None)
    requires e.previousHash == Tip(events, None) && e.hash == Some(ComputeEventHash(e.material, e.previousHash))
    ensures Passes(events + [e], None) && Tip(events + [e], None) == e.hash
  {
    assert (events + [e])[..|events|] == events;
  }

  // ---- a chain determines its history -------------------------------------------------------

  /** The materials folded into a digest, oldest first. */
  function History(tip: Option<Digest>): seq<Material> {
    match tip
    case Some(Sha(m, p)) => History(p) + [m]
    case _ => []
  }

  /** The hashed events of a stream, in order. */
  function HashedPart(events: seq<EngineEvent>): seq<EngineEvent> {
    if |events| == 0 then []
    else
      var init, last := events[..|events| - 1], events[|events| - 1];
      if last.hash.Some? then HashedPart(init) + [last] else HashedPart(init)
  }

  function Materials(events: seq<EngineEvent>): seq<Material> {
    if |events| == 0 then []
    else Materials(events[..|events| - 1]) + [events[|events| - 1].material]
  }

  /** The tip of a passing chain spells out exactly its hashed events, which follow every unhashed one. */
  lemma {:induction false} TipSpellsHistory(events: seq<EngineEvent>)
    requires Passes(events, None)
    ensures Materials(HashedPart(events)) == History(Tip(events, None))
    ensures Tip(events, None).None? ==> HashedPart(events) == []
  {
    if |events| == 0 { return; }
    var init, last := events[..|events| - 1], events[|events| - 1];
    TipSpellsHistory(init);
    if last.hash.Some? {
      var hashed := HashedPart(init) + [last];
      assert hashed[..|hashed| - 1] == HashedPart(init);
      assert last.hash == Some(Sha(last.material, Tip(init, None)));
    } else {
      assert HashedPart(events) == [];
    }
  }

  /** A list of materials in step with the events: the same length and each event's own material. */
  lemma {:induction false} MaterialsAreTheEvents(a: seq<EngineEvent>, b: seq<EngineEvent>)
    requires Materials(a) == Materials(b)
    ensures |a| == |b|
    ensures forall i :: 0 <= i < |a| ==> a[i].material == b[i].material
  {
    if |a| == 0 || |b| == 0 { return; }
    assert Materials(a)[..|Materials(a)| - 1] == Materials(a[..|a| - 1]);
    assert Materials(b)[..|Materials(b)| - 1] == Materials(b[..|b| - 1]);
    MaterialsAreTheEvents(a[..|a| - 1], b[..|b| - 1]);
    assert Materials(a)[|Materials(a)| - 1] == a[|a| - 1].material;
    forall i | 0 <= i < |a| ensures a[i].material == b[i].material {
      if i < |a| - 1 { assert a[i] == a[..|a| - 1][i] && b[i] == b[..|b| - 1][i]; }
    }
  }

  /**
   * Two passing streams that end in the same hash have the same hashed events: same length, order,
   * actor and canonical fields. Only the unhashed prefix and the columns outside the material can differ.
   */
  lemma ChainDeterminesHistory(xs: seq<EngineEvent>, ys: seq<EngineEvent>)
    requires Passes(xs, None) && Passes(ys, None) && Tip(xs, None) == Tip(ys, None)
    ensures |HashedPart(xs)| == |HashedPart(ys)|
    ensures forall i :: 0 <= i < |HashedPart(xs)| ==> HashedPart(xs)[i].material == HashedPart(ys)[i].material
  {
    hide *;
    TipSpellsHistory(xs);
    TipSpellsHistory(ys);
    MaterialsAreTheEvents(HashedPart(xs), HashedPart(ys));
  }

  lemma {:induction false} UnhashedPrefix(events: seq<EngineEvent>)
    requires Passes(events, None)
    ensures |HashedPart(events)| <= |events|
    ensures forall i :: 0 <= i < |events| ==> (events[i].hash.Some? <==> i >= |events| - |HashedPart(events)|)
  {
    if |events| == 0 { return; }
    var init := events[..|events| - 1];
    UnhashedPrefix(init);
    TipSpellsHistory(init);
    assert forall i :: 0 <= i < |init| ==> init[i] == events[i];
  }

  /** A digest is never the digest of something folded into it, so each hashed event moves the tip for good. */
  lemma TipOutgrows(events: seq<EngineEvent>, n: nat, i: nat)
    requires Passes(events, None) && n <= i < |events| && events[i].hash.Some?
    ensures Tip(events, None) != Tip(events[..n], None)
  {
    var kept := events[..n];
    PrefixPasses(events, n, None);
    TipSpellsHistory(events);
    TipSpellsHistory(kept);
    HashedCountGrows(events, n, i);
    MaterialCount(HashedPart(events));
    MaterialCount(HashedPart(kept));
  }

  lemma {:induction false} HashedCountGrows(events: seq<EngineEvent>, n: nat, i: nat)
    requires n <= i < |events| && events[i].hash.Some?
    ensures |HashedPart(events[..n])| < |HashedPart(events)|
  {
    var init := events[..|events| - 1];
    if i < |init| {
      assert init[..n] == events[..n];
      HashedCountGrows(init, n, i);
    } else {
      HashedCountMonotone(init, n);
      assert init[..n] == events[..n];
    }
  }

  lemma {:induction false} HashedCountMonotone(events: seq<EngineEvent>, n: nat)
    requires n <= |events|
    ensures |HashedPart(events[..n])| <= |HashedPart(events)|
  {
    if n < |events| {
      assert events[..|events| - 1][..n] == events[..n];
      HashedCountMonotone(events[..|events| - 1], n);
    } else {
      assert events[..n] == events;
    }
  }

  lemma MaterialCount(events: seq<EngineEvent>)
    ensures |Materials(events)| == |events|
  {}

  // ---- where a change is found --------------------------------------------------------------

  /** The columns verification reads agree. */
  predicate SameHashedColumns(e: EngineEvent, f: EngineEvent) {
    e.material == f.material && e.previousHash == f.previousHash && e.hash == f.hash
  }

  /**
   * Rewriting content in place, hash columns kept, is found at that event; columns outside the material are
   * not covered.
   */
  lemma EditIsFoundInPlace(events: seq<EngineEvent>, i: nat, f: EngineEvent)
    requires Passes(events, None) && i < |events| && events[i].hash.Some?
    requires f.hash == events[i].hash && f.previousHash == events[i].previousHash
    ensures FirstBroken(events[i := f], None) ==
            if f.material == events[i].material then None else Some(f.material.eventId)
  {
    PrefixPasses(events, i, None);
    VerdictAt(events, i, f, None);
    VerdictAt(events, i, events[i], None);
    assert events[i := events[i]] == events;
  }

  /**
   * Replacing a hashed event by anything at all: unless it is the last one, only a replacement with
   * the same hashed columns passes; any other is found at that event or at its successor.
   */
  lemma ReplacementIsFound(events: seq<EngineEvent>, i: nat, f: EngineEvent)
    requires Passes(events, None) && i + 1 < |events| && events[i].hash.Some?
    ensures Passes(events[i := f], None) <==> SameHashedColumns(f, events[i])
    ensures !SameHashedColumns(f, events[i]) ==>
              FirstBroken(events[i := f], None) in {Some(f.material.eventId), Some(events[i + 1].material.eventId)}
  {
    PrefixPasses(events, i, None);
    VerdictAt(events, i, f, None);
    VerdictAt(events, i, events[i], None);
    assert events[i := events[i]] == events;
    var before := Tip(events[..i], None);
    var rest := events[i + 2..];
    assert events[i + 1..] == [events[i + 1]] + rest;
    VerdictOnOne(events[i + 1], rest, events[i].hash);
    VerdictOnOne(events[i + 1], rest, if f.hash.Some? then f.hash else before);
  }

  /** Deleting a hashed event that is not the last is found at its successor. */
  lemma DeletionIsFoundAtSuccessor(events: seq<EngineEvent>, i: nat)
    requires Passes(events, None) && i + 1 < |events| && events[i].hash.Some?
    ensures FirstBroken(events[..i] + events[i + 1..], None) == Some(events[i + 1].material.eventId)
  {
    PrefixPasses(events, i, None);
    PrefixPasses(events, i + 1, None);
    assert events[..i + 1][..i] == events[..i];
    TipOutgrows(events[..i + 1], i, i);
    VerificationSplits(events[..i], events[i + 1..], None);
    var rest := events[i + 2..];
    assert events[i + 1..] == [events[i + 1]] + rest;
    VerdictOnOne(events[i + 1], rest, Tip(events[..i], None));
    VerdictOnOne(events[i + 1], rest, events[i].hash);
  }

  /** Deleting an unhashed event, or dropping a tail, goes unnoticed: the chain never consults the head. */
  lemma DropsThatPass(events: seq<EngineEvent>, i: nat)
    requires Passes(events, None) && i < |events|
    ensures Passes(events[..i], None)
    ensures events[i].hash.None? ==> Passes(events[..i] + events[i + 1..], None)
  {
    PrefixPasses(events, i, None);
    PrefixPasses(events, i + 1, None);
    assert events[..i + 1][..i] == events[..i];
    VerificationSplits(events[..i], events[i + 1..], None);
  }

  /**
   * The first append after a dropped tail exposes it: chained onto the head, the new event is the
   * first break exactly when a hashed event is missing.
   */
  lemma AppendExposesDroppedTail(events: seq<EngineEvent>, n: nat, e: EngineEvent)
    requires Passes(events, None) && n <= |events|
    requires e.previousHash == Tip(events, None) && e.hash == Some(ComputeEventHash(e.material, e.previousHash))
    ensures FirstBroken(events[..n] + [e], None) ==
            if AnyHashed(events[n..]) then Some(e.material.eventId) else None
  {
    hide Tip, FirstBroken, AnyHashed;
    PrefixPasses(events, n, None);
    VerificationSplits(events[..n], [e], None);
    VerdictOnLast(e, Tip(events[..n], None));
    TipMovesWithHashes(events, n);
  }

  lemma TipMovesWithHashes(events: seq<EngineEvent>, n: nat)
    requires Passes(events, None) && n <= |events|
    ensures Tip(events, None) == Tip(events[..n], None) <==> !AnyHashed(events[n..])
  {
    if AnyHashed(events[n..]) {
      var i :| 0 <= i < |events[n..]| && events[n..][i].hash.Some?;
      TipOutgrows(events, n, n + i);
    } else {
      TipOfConcat(events[..n], events[n..], None);
      assert events == events[..n] + events[n..];
      TipThroughUnhashed(events[n..], Tip(events[..n], None));
    }
  }

  predicate AnyHashed(events: seq<EngineEvent>) { exists i :: 0 <= i < |events| && events[i].hash.Some? }

  lemma VerdictOnLast(e: EngineEvent, anchor: Option<Digest>)
    ensures FirstBroken([e], anchor) == if Chains(e, anchor) then None else Some(e.material.eventId)
  {
    assert [e][..0] == [];
  }

  lemma TipThroughUnhashed(events: seq<EngineEvent>, anchor: Option<Digest>)
    requires forall i :: 0 <= i < |events| ==> events[i].hash.None?
    ensures Tip(events, anchor) == anchor
  {}
}
