/** Reading the observation table page by page: the evidence scan, and clients following the cursor. */
module ObservationScan {
  import opened Common
  import opened Ledger
  import opened Database
  import Eligibility
  import EligibilityTheorems
  import CohortTheorems

  const PAGE_SIZE: nat := 500

  /** The filters of a listing, the cursor among them. */
  datatype Query = Query(
    ownerId: string, applicationId: string, domainPack: Option<string>,
    occurredFrom: Option<Time>, occurredTo: Option<Time>, after: Option<nat>)

  /** A row without a client time meets no time filter. */
  predicate Selects(q: Query, r: Row) {
    && r.ownerId == q.ownerId && r.applicationId == q.applicationId
    && (q.domainPack.Some? ==> r.domainPack == q.domainPack.value)
    && (q.occurredFrom.Some? ==> r.occurredAt.Some? && r.occurredAt.value >= q.occurredFrom.value)
    && (q.occurredTo.Some? ==> r.occurredAt.Some? && r.occurredAt.value <= q.occurredTo.value)
    && (q.after.Some? ==> r.position > q.after.value)
  }

  /** All rows a query selects, from a table listed by ascending position. */
  function Filter(stored: seq<Row>, q: Query): seq<Row> {
    if |stored| == 0 then []
    else
      var rest, r := Filter(stored[..|stored| - 1], q), stored[|stored| - 1];
      if Selects(q, r) then rest + [r] else rest
  }

  function Page(stored: seq<Row>, q: Query, limit: nat): seq<Row> {
    var rows := Filter(stored, q);
    if limit < |rows| then rows[..limit] else rows
  }

  /** The cursor a page comes with: the last position of a full page. */
  function NextCursor(page: seq<Row>, limit: nat): Option<nat> {
    if |page| == limit && |page| > 0 then Some(page[|page| - 1].position) else None
  }

  ghost predicate ByPosition(rows: seq<Row>) {
    forall i, j :: 0 <= i < j < |rows| ==> rows[i].position < rows[j].position
  }

  /** The rows up to a position. */
  function UpTo(rows: seq<Row>, max: Option<nat>): seq<Row> {
    if |rows| == 0 then []
    else
      var rest, r := UpTo(rows[..|rows| - 1], max), rows[|rows| - 1];
      if max.None? || r.position <= max.value then rest + [r] else rest
  }

  function LifeQuery(ownerId: string, applicationId: string): Query {
    Query(ownerId, applicationId, Some("life"), None, None, None)
  }

  /** The scan an evaluation takes its rows from. */
  function Scanned(stored: seq<Row>, k: StreamKey, cutoff: nat): seq<Row> {
    UpTo(Filter(stored, LifeQuery(k.ownerId, k.applicationId)), Some(cutoff))
  }

  // ---- the cursor ---------------------------------------------------------------------------

  function Past(rows: seq<Row>, p: nat): seq<Row> {
    if |rows| == 0 then []
    else
      var rest, r := Past(rows[..|rows| - 1], p), rows[|rows| - 1];
      if r.position > p then rest + [r] else rest
  }

  lemma {:induction false} FilterOrdered(stored: seq<Row>, q: Query)
    requires ByPosition(stored)
    ensures ByPosition(Filter(stored, q)) && forall r :: r in Filter(stored, q) ==> r in stored && Selects(q, r)
  {
    hide Selects;
    if |stored| > 0 {
      var init, last := stored[..|stored| - 1], stored[|stored| - 1];
      FilterOrdered(init, q);
      assert stored == init + [last];
      assert forall r :: r in init ==> r.position < last.position;
    }
  }

  lemma {:induction false} CursorFilters(stored: seq<Row>, q: Query, p: nat)
    requires q.after.None? || q.after.value <= p
    ensures Filter(stored, q.(after := Some(p))) == Past(Filter(stored, q), p)
  {
    if |stored| > 0 {
      var init, last := stored[..|stored| - 1], stored[|stored| - 1];
      CursorFilters(init, q, p);
      var rest := Filter(init, q);
      assert (rest + [last])[..|rest|] == rest;
    }
  }

  lemma {:induction false} PastIndex(rows: seq<Row>, i: nat)
    requires ByPosition(rows) && 0 < i <= |rows|
    ensures Past(rows, rows[i - 1].position) == rows[i..]
  {
    var init := rows[..|rows| - 1];
    if i == |rows| {
      NothingPast(rows, rows[i - 1].position);
    } else {
      assert init[i - 1] == rows[i - 1];
      PastIndex(init, i);
      assert init[i..] + [rows[|rows| - 1]] == rows[i..];
    }
  }

  lemma NothingPast(rows: seq<Row>, p: nat)
    requires forall i :: 0 <= i < |rows| ==> rows[i].position <= p
    ensures Past(rows, p) == []
  {}

  /** The query continued from the i-th row selects the rest. */
  lemma CursorContinues(stored: seq<Row>, q: Query, i: nat)
    requires ByPosition(stored) && 0 < i <= |Filter(stored, q)|
    ensures Filter(stored, q.(after := Some(Filter(stored, q)[i - 1].position))) == Filter(stored, q)[i..]
  {
    hide Filter, Past;
    var rows := Filter(stored, q);
    FilterOrdered(stored, q);
    assert rows[i - 1] in rows;
    CursorFilters(stored, q, rows[i - 1].position);
    PastIndex(rows, i);
  }

  // ---- the scan -----------------------------------------------------------------------------

  lemma {:induction false} UpToSplits(a: seq<Row>, b: seq<Row>, max: Option<nat>)
    ensures UpTo(a + b, max) == UpTo(a, max) + UpTo(b, max)
  {
    if |b| == 0 {
      assert a + b == a;
    } else {
      assert (a + b)[..|a + b| - 1] == a + b[..|b| - 1];
      UpToSplits(a, b[..|b| - 1], max);
    }
  }

  method Kept(page: seq<Row>, max: Option<nat>) returns (out: seq<Row>)
    ensures out == UpTo(page, max)
  {
    out := [];
    for i := 0 to |page|
      invariant out == UpTo(page[..i], max)
    {
      assert page[..i + 1][..i] == page[..i];
      if max.None? || page[i].position <= max.value { out := out + [page[i]]; }
    }
    assert page[..|page|] == page;
  }

  /** The paged scan returns every life row of the scope up to the cutoff, once each, in position order. */
  method ScanAllLifeObservations(stored: seq<Row>, ownerId: string, applicationId: string, max: Option<nat>,
                                 pageSize: nat := PAGE_SIZE)
    returns (out: seq<Row>)
    requires ByPosition(stored) && pageSize >= 1
    ensures out == UpTo(Filter(stored, LifeQuery(ownerId, applicationId)), max)
  {
    hide Filter, UpTo, Selects;
    var q := LifeQuery(ownerId, applicationId);
    ghost var all := Filter(stored, q);
    ghost var done := 0;
    var after: Option<nat> := None;
    out := [];
    UpToEmpty(max);
    while true
      invariant 0 <= done <= |all|
      invariant after == if done == 0 then None else Some(all[done - 1].position)
      invariant out == UpTo(all[..done], max)
      decreases |all| - done
    {
      if done > 0 { CursorContinues(stored, q, done); }
      assert q.(after := None) == q && all[0..] == all;
      assert Filter(stored, q.(after := after)) == all[done..];
      var page := Page(stored, q.(after := after), pageSize);
      if |page| == 0 { break; }
      assert all[..done] + page == all[..done + |page|];
      UpToSplits(all[..done], page, max);
      var kept := Kept(page, max);
      out := out + kept;
      after := Some(page[|page| - 1].position);
      done := done + |page|;
      if |page| < pageSize { break; }
    }
    assert all[..done] == all;
  }

  lemma UpToEmpty(max: Option<nat>)
    ensures UpTo([], max) == []
  {}

  /** The scan as the rows that satisfy the conditions, and nothing else. */
  lemma {:induction false} ScanMeans(rows: seq<Row>, max: Option<nat>)
    ensures forall r :: r in UpTo(rows, max) <==> r in rows && (max.None? || r.position <= max.value)
  {
    if |rows| > 0 {
      ScanMeans(rows[..|rows| - 1], max);
      assert rows == rows[..|rows| - 1] + [rows[|rows| - 1]];
    }
  }

  /** A listing is the rows of the table that meet every filter given, by ascending position. */
  lemma {:induction false} ListedExactly(stored: seq<Row>, q: Query)
    ensures forall r ::
              r in Filter(stored, q) <==>
              && r in stored && r.ownerId == q.ownerId && r.applicationId == q.applicationId
              && (q.domainPack == None || q.domainPack == Some(r.domainPack))
              && (q.occurredFrom.Some? ==> r.occurredAt.Some? && q.occurredFrom.value <= r.occurredAt.value)
              && (q.occurredTo.Some? ==> r.occurredAt.Some? && r.occurredAt.value <= q.occurredTo.value)
              && (q.after.Some? ==> q.after.value < r.position)
    ensures ByPosition(stored) ==> ByPosition(Filter(stored, q))
  {
    if |stored| > 0 {
      ListedExactly(stored[..|stored| - 1], q);
      assert stored == stored[..|stored| - 1] + [stored[|stored| - 1]];
      if ByPosition(stored) { FilterOrdered(stored, q); }
    }
  }

  /**
   * A page is the listing up to its limit. It comes with a cursor exactly if it is full, and the cursor is
   * the position of its last row.
   */
  lemma PagedExactly(stored: seq<Row>, q: Query, limit: nat)
    ensures var page := Page(stored, q, limit);
            && page <= Filter(stored, q) && (|page| == limit || |page| == |Filter(stored, q)| < limit)
            && (NextCursor(page, limit).Some? <==> |page| == limit > 0)
            && (NextCursor(page, limit).Some? ==> NextCursor(page, limit) == Some(page[limit - 1].position))
  {}

  /** The scan of an evaluation is every row of its scope in the life pack up to its cutoff, by position. */
  lemma ScannedExactly(stored: seq<Row>, k: StreamKey, cutoff: nat)
    ensures forall r ::
              r in Scanned(stored, k, cutoff) <==>
              && r in stored && r.ownerId == k.ownerId && r.applicationId == k.applicationId
              && r.domainPack == "life" && r.position <= cutoff
    ensures ByPosition(stored) ==> ByPosition(Scanned(stored, k, cutoff))
  {
    hide Filter, UpTo;
    var q := LifeQuery(k.ownerId, k.applicationId);
    ListedExactly(stored, q);
    ScanMeans(Filter(stored, q), Some(cutoff));
    if ByPosition(stored) { UpToOrdered(Filter(stored, q), Some(cutoff)); }
  }

  // ---- following the cursor -----------------------------------------------------------------

  /** The rows a client sees that asks for a page, then for the next one while there is a cursor. */
  ghost function Followed(stored: seq<Row>, q: Query, limit: nat): seq<Row>
    requires ByPosition(stored) && limit >= 1
    decreases |Filter(stored, q)|
  {
    var page := Page(stored, q, limit);
    if NextCursor(page, limit).None? then page
    else
      CursorContinues(stored, q, |page|);
      page + Followed(stored, q.(after := NextCursor(page, limit)), limit)
  }

  /** Following the cursor from page to page lists exactly the rows of the query, in order, once each. */
  lemma {:induction false} FollowingListsAll(stored: seq<Row>, q: Query, limit: nat)
    requires ByPosition(stored) && limit >= 1
    ensures Followed(stored, q, limit) == Filter(stored, q)
    decreases |Filter(stored, q)|
  {
    hide Filter;
    var page := Page(stored, q, limit);
    if NextCursor(page, limit).Some? {
      CursorContinues(stored, q, |page|);
      FollowingListsAll(stored, q.(after := NextCursor(page, limit)), limit);
    }
  }

  // ---- a growing table ----------------------------------------------------------------------

  lemma {:induction false} UpToTwice(rows: seq<Row>, low: nat, high: nat)
    requires low <= high && ByPosition(rows)
    ensures UpTo(UpTo(rows, Some(high)), Some(low)) == UpTo(rows, Some(low)) <= UpTo(rows, Some(high))
    ensures forall i ::
              |UpTo(rows, Some(low))| <= i < |UpTo(rows, Some(high))| ==> UpTo(rows, Some(high))[i].position > low
  {
    if |rows| == 0 { return; }
    var init, last := rows[..|rows| - 1], rows[|rows| - 1];
    UpToTwice(init, low, high);
    var most := UpTo(init, Some(high));
    assert (most + [last])[..|most|] == most;
    if last.position <= low { AllUpTo(init, low); AllUpTo(init, high); }
  }

  lemma {:induction false} AllUpTo(rows: seq<Row>, max: nat)
    requires forall i :: 0 <= i < |rows| ==> rows[i].position <= max
    ensures UpTo(rows, Some(max)) == rows
  {
    if |rows| > 0 {
      var init := rows[..|rows| - 1];
      AllUpTo(init, max);
      assert UpTo(rows, Some(max)) == init + [rows[|rows| - 1]] == rows;
    }
  }

  lemma {:induction false} FilterUpTo(stored: seq<Row>, q: Query, max: Option<nat>)
    ensures UpTo(Filter(stored, q), max) == Filter(UpTo(stored, max), q)
  {
    if |stored| > 0 {
      var init, last := stored[..|stored| - 1], stored[|stored| - 1];
      FilterUpTo(init, q, max);
      var f, u := Filter(init, q), UpTo(init, max);
      assert (f + [last])[..|f|] == f && (u + [last])[..|u|] == u;
    }
  }

  lemma UpToOrdered(rows: seq<Row>, max: Option<nat>)
    requires ByPosition(rows)
    ensures ByPosition(UpTo(rows, max))
  {
    if |rows| > 0 {
      var init := rows[..|rows| - 1];
      UpToOrdered(init, max);
      ScanMeans(init, max);
      assert forall r :: r in init ==> r.position < rows[|rows| - 1].position;
    }
  }

  lemma OrderedIsAscending(rows: seq<Row>)
    requires ByPosition(rows)
    ensures EligibilityTheorems.Ascending(rows) && EligibilityTheorems.Keyed(rows)
  {}

  /**
   * Tables that agree up to the first cutoff: the first scan is the start of the second, which adds later
   * rows only.
   */
  lemma ScanGrows(early: seq<Row>, late: seq<Row>, k: StreamKey, low: nat, high: nat)
    requires ByPosition(early) && ByPosition(late) && low <= high && UpTo(early, Some(low)) == UpTo(late, Some(low))
    ensures Scanned(early, k, low) <= Scanned(late, k, high) && ByPosition(Scanned(late, k, high))
    ensures forall i ::
              |Scanned(early, k, low)| <= i < |Scanned(late, k, high)| ==> Scanned(late, k, high)[i].position > low
  {
    hide Filter, UpTo;
    var q := LifeQuery(k.ownerId, k.applicationId);
    FilterUpTo(early, q, Some(low));
    FilterUpTo(late, q, Some(low));
    FilterOrdered(late, q);
    UpToTwice(Filter(late, q), low, high);
    UpToOrdered(Filter(late, q), Some(high));
  }

  /**
   * From the tables themselves: evaluated again over a table that only grew past the first cutoff, an
   * experiment keeps its baseline, keeps every prospective observation, and is no farther from its target.
   */
  lemma EvaluationsUnderGrowth(early: seq<Row>, late: seq<Row>, k: StreamKey, parse: string -> Eligibility.Number,
                               a: Eligibility.Anchors, b: Eligibility.Anchors, target: int)
    requires ByPosition(early) && ByPosition(late) && CohortTheorems.EvaluatedLater(a, b)
    requires UpTo(early, Some(a.cutoffPosition)) == UpTo(late, Some(a.cutoffPosition))
    ensures var first := Eligibility.Select(Scanned(early, k, a.cutoffPosition), k, parse).kept;
            var second := Eligibility.Select(Scanned(late, k, b.cutoffPosition), k, parse).kept;
            && Eligibility.Cohort(second, b, Eligibility.Baseline) == Eligibility.Cohort(first, a, Eligibility.Baseline)
            && (forall o ::
                o in Eligibility.Cohort(first, a, Eligibility.Prospective) ==>
                  o in Eligibility.Cohort(second, b, Eligibility.Prospective))
            && CohortTheorems.TargetRemaining(target, Eligibility.Cohort(second, b, Eligibility.Prospective))
               <= CohortTheorems.TargetRemaining(target, Eligibility.Cohort(first, a, Eligibility.Prospective))
  {
    hide Scanned, Filter, UpTo, Eligibility.Select, Eligibility.Cohort;
    ScanGrows(early, late, k, a.cutoffPosition, b.cutoffPosition);
    var rows, n := Scanned(late, k, b.cutoffPosition), |Scanned(early, k, a.cutoffPosition)|;
    OrderedIsAscending(rows);
    assert rows[..n] == Scanned(early, k, a.cutoffPosition);
    CohortTheorems.CohortsUnderGrowth(rows, n, k, parse, a, b, target);
  }
}
