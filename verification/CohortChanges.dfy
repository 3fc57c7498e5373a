/** Cohorts after a rebuild: rows given the time they lacked, and an activation anchor moved by one position. */
module CohortChanges {
  import opened Common
  import opened Ledger
  import opened Database
  import opened Eligibility
  import opened EligibilityTheorems
  import opened CohortTheorems

  // ---- rows without a client time -----------------------------------------------------------

  /** Giving a row the time it lacked changes its screening exactly when nothing else excluded it before. */
  lemma AbsentTimeDecides(r: Row, t: Time, k: StreamKey, parse: string -> Number)
    requires r.occurredAt.None?
    ensures Screen(r, k, parse).Excluded?
    ensures Screen(r.(occurredAt := Some(t)), k, parse) == Screen(r, k, parse)
            <==> Screen(r, k, parse) != Excluded(MISSING_OCCURRED_AT)
  {}

  /**
   * A check-in submitted without a time: not eligible live, eligible after a rebuild has given it the time of
   * its event.
   */
  lemma RebuildCanChangeCohorts(parse: string -> Number) returns (r: Row, k: StreamKey)
    ensures r.occurredAt.None? && Select([r], k, parse).kept == []
    ensures |Select([r.(occurredAt := Some(r.createdAt))], k, parse).kept| == 1
  {
    k := StreamKey("tenant", "owner", "app");
    var attributes := map["sleep_hours" := JNumber(8.0), "productivity" := JNumber(7.0)];
    r := Row("obs", 1, "evt", "tenant", "owner", "app", "life", "1.0", "daily_check_in", "slept", "OBSERVED_FACT", None,
             "person",
             map["attributes" := JObject(attributes)], [SOURCE_PREFIX + "a"],
                 map["life_event_type" := JString(LIFE_EVENT_TYPE)],
             None, 0, "aud");
    SourceIsAccepted();
    assert LogicalSource(r.sourceIds) == Some(SOURCE_PREFIX + "a");
    var timed := r.(occurredAt := Some(r.createdAt));
    assert Screen(r, k, parse) == Excluded(MISSING_OCCURRED_AT);
    assert Screen(timed, k, parse).Admitted?;
    OneRow(r, k, parse);
    OneRow(timed, k, parse);
  }

  lemma SourceIsAccepted()
    ensures IsSourceId(SOURCE_PREFIX + "a")
  {
    var s := SOURCE_PREFIX + "a";
    assert s[..|SOURCE_PREFIX|] == SOURCE_PREFIX && s[|s| - 1] == 'a';
    assert s[|SOURCE_PREFIX|..] == ['a'];
    assert IsSourceChar('a');
  }

  lemma OneRow(r: Row, k: StreamKey, parse: string -> Number)
    ensures Select([r], k, parse).kept == if Screen(r, k, parse).Admitted? then [Screen(r, k, parse).observation]
              else []
  {
    hide Screen;
    assert [r][1..] == [] && [r][..0] == [];
    assert Sorted([r]) == [r];
    assert TakeAll([r], k, parse) == Take(NONE_SELECTED, r, k, parse);
  }

  // ---- a whole selection --------------------------------------------------------------------

  /** The row with the time of its event where the client gave none: what replay stores. */
  function Dated(r: Row, time: Row -> Time): Row {
    if r.occurredAt.None? then r.(occurredAt := Some(time(r))) else r
  }

  function AllDated(rows: seq<Row>, time: Row -> Time): seq<Row> {
    seq(|rows|, i requires 0 <= i < |rows| => Dated(rows[i], time))
  }

  lemma {:induction false} InsertDated(r: Row, rows: seq<Row>, time: Row -> Time)
    ensures Insert(Dated(r, time), AllDated(rows, time)) == AllDated(Insert(r, rows), time)
  {
    if |rows| == 0 || Precedes(r, rows[0]) {
      assert AllDated([r] + rows, time) == [Dated(r, time)] + AllDated(rows, time);
    } else {
      InsertDated(r, rows[1..], time);
      assert AllDated(rows, time)[1..] == AllDated(rows[1..], time);
      var rest := Insert(r, rows[1..]);
      assert AllDated([rows[0]] + rest, time) == [Dated(rows[0], time)] + AllDated(rest, time);
    }
  }

  /** Sorting does not look at the time. */
  lemma {:induction false} SortDated(rows: seq<Row>, time: Row -> Time)
    ensures Sorted(AllDated(rows, time)) == AllDated(Sorted(rows), time)
  {
    if |rows| > 0 {
      SortDated(rows[1..], time);
      InsertDated(rows[0], Sorted(rows[1..]), time);
      assert AllDated(rows, time)[1..] == AllDated(rows[1..], time);
    }
  }

  predicate LacksTime(r: Row, k: StreamKey, parse: string -> Number) {
    Screen(r, k, parse) == Excluded(MISSING_OCCURRED_AT)
  }

  lemma DatedScreening(r: Row, time: Row -> Time, k: StreamKey, parse: string -> Number)
    ensures Screen(Dated(r, time), k, parse) == Screen(r, k, parse) <==> !LacksTime(r, k, parse)
    ensures !LacksTime(Dated(r, time), k, parse) && (Screen(r, k, parse).Admitted? ==> !LacksTime(r, k, parse))
    ensures Screen(Dated(r, time), k, parse).Admitted? ==>
              var o := Screen(Dated(r, time), k, parse).observation;
              o.position == r.position && o.observationId == r.observationId
  {
    if r.occurredAt.None? { AbsentTimeDecides(r, time(r), k, parse); }
  }

  lemma DatedInit(rows: seq<Row>, time: Row -> Time)
    requires |rows| > 0
    ensures AllDated(rows, time)[..|rows| - 1] == AllDated(rows[..|rows| - 1], time)
    ensures AllDated(rows, time)[|rows| - 1] == Dated(rows[|rows| - 1], time)
  {}

  lemma {:induction false} MissingCounted(rows: seq<Row>, k: StreamKey, parse: string -> Number)
    ensures Count(TakeAll(rows, k, parse).reasons, MISSING_OCCURRED_AT) > 0 <==>
            exists i :: 0 <= i < |rows| && LacksTime(rows[i], k, parse)
  {
    hide Screen, Conflicts;
    if |rows| > 0 {
      var init := rows[..|rows| - 1];
      MissingCounted(init, k, parse);
      assert forall i :: 0 <= i < |init| ==> init[i] == rows[i];
    }
  }

  lemma {:induction false} TakingDated(rows: seq<Row>, time: Row -> Time, k: StreamKey, parse: string -> Number)
    requires forall i :: 0 <= i < |rows| ==> !LacksTime(rows[i], k, parse)
    ensures TakeAll(AllDated(rows, time), k, parse) == TakeAll(rows, k, parse)
  {
    hide Screen, Conflicts, LacksTime, Dated;
    if |rows| > 0 {
      DatedInit(rows, time);
      TakingDated(rows[..|rows| - 1], time, k, parse);
      DatedScreening(rows[|rows| - 1], time, k, parse);
    }
  }

  /**
   * Giving every row its event time leaves the selection as it was exactly when no row was excluded for
   * lacking one.
   */
  lemma DatingKeepsSelectionExactly(rows: seq<Row>, time: Row -> Time, k: StreamKey, parse: string -> Number)
    ensures Select(AllDated(rows, time), k, parse) == Select(rows, k, parse) <==>
            forall r :: r in rows ==> !LacksTime(r, k, parse)
  {
    hide TakeAll, LacksTime, Dated;
    var ordered := Sorted(rows);
    SortDated(rows, time);
    SameMembers(rows);
    MissingCounted(ordered, k, parse);
    MissingCounted(AllDated(ordered, time), k, parse);
    forall i | 0 <= i < |ordered| ensures !LacksTime(AllDated(ordered, time)[i], k, parse) {
      DatedScreening(ordered[i], time, k, parse);
    }
    if forall r :: r in rows ==> !LacksTime(r, k, parse) { TakingDated(ordered, time, k, parse); }
  }

  // ---- the eligible rows --------------------------------------------------------------------

  /** Admitted once it has a time, with no admitted row of its source before it. */
  ghost predicate EntersAt(rows: seq<Row>, n: nat, time: Row -> Time, k: StreamKey, parse: string -> Number)
    requires n < |rows|
  {
    && LacksTime(rows[n], k, parse) && Screen(Dated(rows[n], time), k, parse).Admitted?
    && forall i ::
         0 <= i < n ==> !AdmittedFor(rows[i], Screen(Dated(rows[n], time), k, parse).observation.source, k, parse)
  }

  /** As long as no row enters, the same rows are kept. */
  lemma {:induction false} KeptDated(rows: seq<Row>, time: Row -> Time, k: StreamKey, parse: string -> Number)
    requires forall n :: 0 <= n < |rows| ==> !EntersAt(rows, n, time, k, parse)
    ensures TakeAll(AllDated(rows, time), k, parse).kept == TakeAll(rows, k, parse).kept
  {
    if |rows| == 0 { return; }
    hide Screen, Conflicts, LacksTime, Dated, EntersAt;
    var init, r := rows[..|rows| - 1], rows[|rows| - 1];
    DatedInit(rows, time);
    forall n | 0 <= n < |init| ensures !EntersAt(init, n, time, k, parse) {
      EntersInPrefix(rows, |init|, n, time, k, parse);
    }
    KeptDated(init, time, k, parse);
    DatedScreening(r, time, k, parse);
    if LacksTime(r, k, parse) && Screen(Dated(r, time), k, parse).Admitted? {
      var source := Screen(Dated(r, time), k, parse).observation.source;
      AdmittedBefore(rows, init, source, time, k, parse);
      KeepsTheFirst(init, source, k, parse);
      FirstExists(init, source, k, parse);
    }
    LackingIsExcluded(r, k, parse);
  }

  lemma LackingIsExcluded(r: Row, k: StreamKey, parse: string -> Number)
    ensures LacksTime(r, k, parse) ==> Screen(r, k, parse).Excluded?
  {}

  lemma EntersInPrefix(rows: seq<Row>, m: nat, n: nat, time: Row -> Time, k: StreamKey, parse: string -> Number)
    requires n < m <= |rows|
    ensures EntersAt(rows[..m], n, time, k, parse) <==> EntersAt(rows, n, time, k, parse)
  {
    hide Screen, LacksTime, Dated, AdmittedFor;
    assert forall i :: 0 <= i < m ==> rows[..m][i] == rows[i];
  }

  lemma AdmittedBefore(rows: seq<Row>, init: seq<Row>, source: string, time: Row -> Time, k: StreamKey,
                       parse: string -> Number)
    requires |rows| > 0 && !EntersAt(rows, |rows| - 1, time, k, parse) && init == rows[..|rows| - 1]
    requires LacksTime(rows[|rows| - 1], k, parse) && Screen(Dated(rows[|rows| - 1], time), k, parse).Admitted?
    requires source == Screen(Dated(rows[|rows| - 1], time), k, parse).observation.source
    ensures exists q :: q in init && AdmittedFor(q, source, k, parse)
  {
    hide Screen, LacksTime, Dated, AdmittedFor;
    var i :| 0 <= i < |init| && AdmittedFor(rows[i], source, k, parse);
    assert init[i] in init;
  }

  /** The first row to enter is kept, and the rows kept before hold none like it. */
  lemma EnteringShows(rows: seq<Row>, n: nat, time: Row -> Time, k: StreamKey, parse: string -> Number)
    requires Ascending(rows) && Keyed(rows) && n < |rows| && EntersAt(rows, n, time, k, parse)
    requires forall m :: 0 <= m < n ==> !EntersAt(rows, m, time, k, parse)
    ensures TakeAll(AllDated(rows, time), k, parse).kept != TakeAll(rows, k, parse).kept
  {
    hide Screen, Conflicts, LacksTime, Dated, EntersAt, Precedes;
    var dated := AllDated(rows, time);
    var o := Screen(Dated(rows[n], time), k, parse).observation by {
      assert EntersAt(rows, n, time, k, parse); EntryAdmitted(rows, n, time, k, parse);
    }
    EntryAdmitted(rows, n, time, k, parse);
    forall m | 0 <= m < n ensures !EntersAt(rows[..n], m, time, k, parse) {
      EntersInPrefix(rows, n, m, time, k, parse);
    }
    KeptDated(rows[..n], time, k, parse);
    assert dated[..n] == AllDated(rows[..n], time) && dated[..n + 1][..n] == dated[..n];
    KeepsTheFirst(rows[..n], o.source, k, parse);
    FirstExists(rows[..n], o.source, k, parse);
    assert o in TakeAll(dated[..n + 1], k, parse).kept;
    TakingGrows(dated, n + 1, k, parse);
    assert o in TakeAll(dated, k, parse).kept;
    if o in TakeAll(rows, k, parse).kept {
      KeptIsOrdered(rows, k, parse);
      NotFromElsewhere(rows, n, o, time, k, parse);
    }
  }

  lemma EntryAdmitted(rows: seq<Row>, n: nat, time: Row -> Time, k: StreamKey, parse: string -> Number)
    requires n < |rows| && EntersAt(rows, n, time, k, parse)
    ensures Screen(Dated(rows[n], time), k, parse).Admitted? && LacksTime(rows[n], k, parse)
    ensures forall q ::
              q in rows[..n] ==> !AdmittedFor(q, Screen(Dated(rows[n], time), k, parse).observation.source, k, parse)
  {
    hide Screen, LacksTime, Dated, AdmittedFor;
  }

  lemma NotFromElsewhere(rows: seq<Row>, n: nat, o: Eligible, time: Row -> Time, k: StreamKey, parse: string -> Number)
    requires Keyed(rows) && n < |rows| && LacksTime(rows[n], k, parse)
             && Screen(Dated(rows[n], time), k, parse) == Admitted(o)
    ensures !ComesFrom(rows, o, k, parse)
  {
    hide Screen, Dated, LacksTime;
    DatedScreening(rows[n], time, k, parse);
    LackingIsExcluded(rows[n], k, parse);
    forall r | r in rows ensures Screen(r, k, parse) != Admitted(o) {
      ScreeningKeepsKey(r, k, parse);
      if r.position == o.position && r.observationId == o.observationId { assert SameKey(r, rows[n]); }
    }
  }

  lemma ScreeningKeepsKey(r: Row, k: StreamKey, parse: string -> Number)
    ensures Screen(r, k, parse).Admitted? ==>
              var o := Screen(r, k, parse).observation; o.position == r.position && o.observationId == r.observationId
  {}

  /**
   * Giving every row its event time leaves the eligible rows as they were, and so every cohort, exactly
   * when each row thereby admitted comes after an admitted row of its source.
   */
  lemma DatingKeepsEligibleExactly(rows: seq<Row>, time: Row -> Time, k: StreamKey, parse: string -> Number)
    requires Keyed(rows)
    ensures Select(AllDated(rows, time), k, parse).kept == Select(rows, k, parse).kept <==>
            forall r :: r in rows && LacksTime(r, k, parse) && Screen(Dated(r, time), k, parse).Admitted? ==>
              exists q :: q in rows && q != r && Precedes(q, r)
                          && AdmittedFor(q, Screen(Dated(r, time), k, parse).observation.source, k, parse)
  {
    hide TakeAll, LacksTime, Dated, Screen, Precedes, AdmittedFor, EntersAt;
    var ordered := Sorted(rows);
    SortDated(rows, time);
    SortSorts(rows);
    SameMembers(rows);
    assert Keyed(ordered);
    forall n | 0 <= n < |ordered| ensures EntersAt(ordered, n, time, k, parse)
    <==> Enters(rows, ordered[n], time, k, parse) {
      EntersSomewhere(rows, ordered, n, time, k, parse);
    }
    if n :| 0 <= n < |ordered| && EntersAt(ordered, n, time, k, parse) {
      var first := FirstEntry(ordered, n, time, k, parse);
      EnteringShows(ordered, first, time, k, parse);
      assert Enters(rows, ordered[n], time, k, parse) && ordered[n] in rows;
    } else {
      KeptDated(ordered, time, k, parse);
      forall r | r in rows ensures !Enters(rows, r, time, k, parse) {
        assert r in ordered;
        var n :| 0 <= n < |ordered| && ordered[n] == r;
      }
    }
  }

  ghost predicate Enters(rows: seq<Row>, r: Row, time: Row -> Time, k: StreamKey, parse: string -> Number) {
    && LacksTime(r, k, parse) && Screen(Dated(r, time), k, parse).Admitted?
    && forall q :: q in rows && q != r && Precedes(q, r) ==>
         !AdmittedFor(q, Screen(Dated(r, time), k, parse).observation.source, k, parse)
  }

  lemma FirstEntry(rows: seq<Row>, n: nat, time: Row -> Time, k: StreamKey, parse: string -> Number)
      returns (first: nat)
    requires n < |rows| && EntersAt(rows, n, time, k, parse)
    ensures first < |rows| && EntersAt(rows, first, time, k, parse)
    ensures forall m :: 0 <= m < first ==> !EntersAt(rows, m, time, k, parse)
  {
    hide EntersAt;
    if m :| 0 <= m < n && EntersAt(rows, m, time, k, parse) {
      first := FirstEntry(rows, m, time, k, parse);
    } else {
      first := n;
    }
  }

  /** Before it in the sorted list is before it in the order of rows. */
  lemma EntersSomewhere(rows: seq<Row>, ordered: seq<Row>, n: nat, time: Row -> Time, k: StreamKey,
                        parse: string -> Number)
    requires Ascending(ordered) && Keyed(ordered) && n < |ordered|
    requires forall r :: r in rows <==> r in ordered
    ensures EntersAt(ordered, n, time, k, parse) <==> Enters(rows, ordered[n], time, k, parse)
  {
    hide LacksTime, Dated, Screen, Precedes, AdmittedFor;
    var r := ordered[n];
    if LacksTime(r, k, parse) && Screen(Dated(r, time), k, parse).Admitted? {
      var source := Screen(Dated(r, time), k, parse).observation.source;
      NotItself(r, source, k, parse);
      forall q | q in rows && q != r && Precedes(q, r) ensures exists i :: 0 <= i < n && ordered[i] == q {
        var i :| 0 <= i < |ordered| && ordered[i] == q;
        if i > n { PrecedesTotal(q, r); }
      }
      forall i | 0 <= i < n && ordered[i] != r ensures ordered[i] in rows && Precedes(ordered[i], r) {
        assert ordered[i] in ordered;
      }
    }
  }

  lemma NotItself(r: Row, source: string, k: StreamKey, parse: string -> Number)
    requires LacksTime(r, k, parse)
    ensures !AdmittedFor(r, source, k, parse)
  {}

  // ---- the anchor moved by one position -----------------------------------------------------

  /**
   * A rebuilt experiment is anchored one position later. That changes the placement of an observation
   * exactly if it sits at one of the two positions: the ledger's own activation and registration events.
   */
  lemma MovedAnchorDecides(o: Eligible, a: Anchors)
    ensures var moved := a.(activationPosition := a.activationPosition + 1);
            Place(o, a) == Place(o, moved) <==>
            || o.occurredAt > a.startedAt + ALLOWED_CLOCK_SKEW
            || if o.occurredAt < a.baselineCutoff
                 then o.position != a.activationPosition || o.recordedAt > a.activationRecordedAt
               else o.occurredAt < a.prospectiveStart || o.position != a.activationPosition + 1
  {}

  lemma {:induction false} MovedAnchorKeepsCohorts(eligible: seq<Eligible>, a: Anchors, p: Placement)
    requires forall o :: o in eligible ==> o.position != a.activationPosition && o.position != a.activationPosition + 1
    ensures var moved := a.(activationPosition := a.activationPosition + 1);
            Cohort(eligible, moved, p) == Cohort(eligible, a, p) && LeftOut(eligible, moved) == LeftOut(eligible, a)
  {
    hide Place;
    if |eligible| > 0 {
      var init := eligible[..|eligible| - 1];
      assert eligible == init + [eligible[|eligible| - 1]];
      MovedAnchorKeepsCohorts(init, a, p);
      MovedAnchorDecides(eligible[|eligible| - 1], a);
    }
  }
}
