/** What selection promises: any order of the rows, the first row of a source wins, the exact data-quality flag. */
module EligibilityTheorems {
  import opened Common
  import opened Ledger
  import opened Database
  import opened Eligibility

  // ---- sorting ------------------------------------------------------------------------------

  ghost predicate Ascending(rows: seq<Row>) { forall i, j :: 0 <= i < j < |rows| ==> Precedes(rows[i], rows[j]) }

  /** Position and id identify a row. */
  ghost predicate Keyed(rows: seq<Row>) { forall a, b :: a in rows && b in rows && SameKey(a, b) ==> a == b }

  lemma PrecedesTotal(a: Row, b: Row)
    ensures Precedes(a, b) || Precedes(b, a)
    ensures Precedes(a, b) && Precedes(b, a) ==> SameKey(a, b)
  {
    StringLeqTotal(a.observationId, b.observationId);
    if StringLeq(a.observationId, b.observationId) && StringLeq(b.observationId, a.observationId) {
      StringLeqAntisymmetric(a.observationId, b.observationId);
    }
  }

  lemma PrecedesTransitive(a: Row, b: Row, c: Row)
    requires Precedes(a, b) && Precedes(b, c)
    ensures Precedes(a, c)
  {
    if a.position == b.position == c.position {
      StringLeqTransitive(a.observationId, b.observationId, c.observationId);
    }
  }

  lemma {:induction false} InsertSorts(r: Row, rows: seq<Row>)
    requires Ascending(rows)
    ensures Ascending(Insert(r, rows)) && multiset(Insert(r, rows)) == multiset(rows) + multiset{r}
  {
    hide Precedes;
    if |rows| == 0 { return; }
    if Precedes(r, rows[0]) {
      forall j | 0 < j < |rows| ensures Precedes(r, rows[j]) { PrecedesTransitive(r, rows[0], rows[j]); }
    } else {
      PrecedesTotal(r, rows[0]);
      InsertSorts(r, rows[1..]);
      assert rows == [rows[0]] + rows[1..];
      var rest := Insert(r, rows[1..]);
      forall j | 0 <= j < |rest| ensures Precedes(rows[0], rest[j]) {
        assert rest[j] in multiset(rest);
        assert rest[j] == r || rest[j] in rows[1..];
      }
    }
  }

  lemma {:induction false} SortSorts(rows: seq<Row>)
    ensures Ascending(Sorted(rows)) && multiset(Sorted(rows)) == multiset(rows)
  {
    if |rows| > 0 {
      SortSorts(rows[1..]);
      InsertSorts(rows[0], Sorted(rows[1..]));
      assert rows == [rows[0]] + rows[1..];
    }
  }

  /** An ascending list is determined by its rows. */
  lemma {:induction false} AscendingIsUnique(a: seq<Row>, b: seq<Row>)
    requires Ascending(a) && Ascending(b) && multiset(a) == multiset(b) && Keyed(a)
    ensures a == b
  {
    hide Ascending, Keyed;
    SameLength(a, b);
    if |a| == 0 { return; }
    LastsAgree(a, b);
    AscendingInit(a);
    AscendingInit(b);
    KeyedInit(a);
    AscendingIsUnique(a[..|a| - 1], b[..|b| - 1]);
  }

  lemma AscendingInit(a: seq<Row>)
    requires Ascending(a) && |a| > 0
    ensures Ascending(a[..|a| - 1]) && a == a[..|a| - 1] + [a[|a| - 1]]
    ensures multiset(a[..|a| - 1]) == multiset(a) - multiset{a[|a| - 1]}
  {
    hide Precedes;
    assert a == a[..|a| - 1] + [a[|a| - 1]];
  }

  lemma KeyedInit(a: seq<Row>)
    requires Keyed(a) && |a| > 0
    ensures Keyed(a[..|a| - 1])
  {}

  lemma SameLength(a: seq<Row>, b: seq<Row>)
    requires multiset(a) == multiset(b)
    ensures |a| == |b|
  {
    assert |multiset(a)| == |a| && |multiset(b)| == |b|;
  }

  lemma LastsAgree(a: seq<Row>, b: seq<Row>)
    requires Ascending(a) && Ascending(b) && multiset(a) == multiset(b) && Keyed(a) && |a| == |b| > 0
    ensures a[|a| - 1] == b[|b| - 1]
  {
    hide Precedes;
    var x, y := a[|a| - 1], b[|b| - 1];
    assert x in multiset(a) && y in multiset(b);
    assert x in b && y in a;
    if x != y {
      var i :| 0 <= i < |b| && b[i] == x;
      var j :| 0 <= j < |a| && a[j] == y;
      PrecedesTotal(x, y);
    }
  }

  /** Any order of the rows gives the same eligible list, counts and flag. */
  lemma SelectionIsOrderIndependent(rows: seq<Row>, other: seq<Row>, k: StreamKey, parse: string -> Number)
    requires multiset(rows) == multiset(other) && Keyed(rows)
    ensures Select(rows, k, parse) == Select(other, k, parse)
  {
    SortSorts(rows);
    SortSorts(other);
    SameMembers(rows);
    AscendingIsUnique(Sorted(rows), Sorted(other));
  }

  lemma SameMembers(rows: seq<Row>)
    ensures forall r :: r in rows <==> r in Sorted(rows)
  {
    SortSorts(rows);
    forall r ensures r in rows <==> r in Sorted(rows) {
      assert r in multiset(rows) <==> r in multiset(Sorted(rows));
    }
  }

  // ---- first row wins -----------------------------------------------------------------------

  predicate AdmittedFor(r: Row, source: string, k: StreamKey, parse: string -> Number) {
    Screen(r, k, parse).Admitted? && Screen(r, k, parse).observation.source == source
  }

  /** The first admitted row of a source. */
  function FirstOf(rows: seq<Row>, source: string, k: StreamKey, parse: string -> Number): Option<Row> {
    if |rows| == 0 then None
    else
      var rest := FirstOf(rows[..|rows| - 1], source, k, parse);
      if rest.Some? then rest
      else if AdmittedFor(rows[|rows| - 1], source, k, parse) then Some(rows[|rows| - 1])
      else None
  }

  lemma KeptGrows(kept: seq<Eligible>, o: Eligible, source: string)
    ensures KeptOf(kept + [o], source) == if o.source == source then Some(o) else KeptOf(kept, source)
  {
    assert (kept + [o])[..|kept|] == kept;
  }

  lemma {:induction false} KeepsTheFirst(rows: seq<Row>, source: string, k: StreamKey, parse: string -> Number)
    ensures var first := FirstOf(rows, source, k, parse);
            && (first.Some? ==> AdmittedFor(first.value, source, k, parse))
            && KeptOf(TakeAll(rows, k, parse).kept, source) ==
               (if first.Some? then Some(Screen(first.value, k, parse).observation) else None)
  {
    hide Screen, Conflicts;
    if |rows| == 0 { return; }
    var init, r := rows[..|rows| - 1], rows[|rows| - 1];
    KeepsTheFirst(init, source, k, parse);
    var s, screening := TakeAll(init, k, parse), Screen(r, k, parse);
    if screening.Admitted? && KeptOf(s.kept, screening.observation.source).None? {
      KeptGrows(s.kept, screening.observation, source);
    }
  }

  lemma {:induction false} FirstIsLeast(rows: seq<Row>, source: string, k: StreamKey, parse: string -> Number)
    requires Ascending(rows)
    ensures FirstOf(rows, source, k, parse).None? <==> forall r :: r in rows ==> !AdmittedFor(r, source, k, parse)
    ensures FirstOf(rows, source, k, parse).Some? ==>
              var first := FirstOf(rows, source, k, parse).value;
              first in rows && forall r ::
                r in rows && AdmittedFor(r, source, k, parse) && r != first ==> Precedes(first, r)
  {
    hide Precedes, AdmittedFor;
    if |rows| > 0 {
      var init := rows[..|rows| - 1];
      FirstIsLeast(init, source, k, parse);
      assert rows == init + [rows[|rows| - 1]];
      forall r | r in init ensures Precedes(r, rows[|rows| - 1]) {
        var i :| 0 <= i < |init| && init[i] == r;
        assert rows[i] == r;
      }
    }
  }

  /** Each source keeps the admitted row of lowest position, and a source without admitted rows keeps none. */
  lemma LowestPositionWins(rows: seq<Row>, source: string, k: StreamKey, parse: string -> Number)
    ensures var kept := KeptOf(Select(rows, k, parse).kept, source);
            && (kept.None? <==> forall r :: r in rows ==> !AdmittedFor(r, source, k, parse))
            && (kept.Some? ==>
                  exists first :: && first in rows && AdmittedFor(first, source, k, parse)
                                  && Screen(first, k, parse) == Admitted(kept.value)
                                  && forall r ::
                                       r in rows && AdmittedFor(r, source, k, parse) && r != first ==>
                                         Precedes(first, r))
  {
    hide Screen, Precedes;
    SortSorts(rows);
    SameMembers(rows);
    KeepsTheFirst(Sorted(rows), source, k, parse);
    FirstIsLeast(Sorted(rows), source, k, parse);
    var first := FirstOf(Sorted(rows), source, k, parse);
    if first.Some? { assert first.value in rows; }
  }

  lemma {:induction false} FirstExists(rows: seq<Row>, source: string, k: StreamKey, parse: string -> Number)
    ensures var first := FirstOf(rows, source, k, parse);
            && (first.None? <==> forall r :: r in rows ==> !AdmittedFor(r, source, k, parse))
            && (first.Some? ==> first.value in rows && AdmittedFor(first.value, source, k, parse))
  {
    hide AdmittedFor;
    if |rows| > 0 {
      FirstExists(rows[..|rows| - 1], source, k, parse);
      assert rows == rows[..|rows| - 1] + [rows[|rows| - 1]];
    }
  }

  // ---- one row per source, in position order ------------------------------------------------

  ghost predicate ComesFrom(rows: seq<Row>, o: Eligible, k: StreamKey, parse: string -> Number) {
    exists r :: r in rows && Screen(r, k, parse) == Admitted(o)
  }

  /** Different sources, positions ascending. */
  ghost predicate OneEach(kept: seq<Eligible>) {
    forall i, j :: 0 <= i < j < |kept| ==> kept[i].position <= kept[j].position && kept[i].source != kept[j].source
  }

  /** The kept rows are of different sources and already in position order, so sorting them again changes nothing. */
  lemma {:induction false} KeptIsOrdered(rows: seq<Row>, k: StreamKey, parse: string -> Number)
    requires Ascending(rows)
    ensures OneEach(TakeAll(rows, k, parse).kept)
    ensures forall o :: o in TakeAll(rows, k, parse).kept ==> ComesFrom(rows, o, k, parse)
  {
    hide Screen, Conflicts, Precedes, ComesFrom, OneEach, Ascending;
    if |rows| == 0 { NothingKept(); return; }
    var init, r := rows[..|rows| - 1], rows[|rows| - 1];
    AscendingInit(rows);
    KeptIsOrdered(init, k, parse);
    var s, screening := TakeAll(init, k, parse), Screen(r, k, parse);
    forall o | o in s.kept ensures ComesFrom(rows, o, k, parse) { ComesLater(init, r, o, k, parse); }
    if screening.Admitted? && KeptOf(s.kept, screening.observation.source).None? {
      NotKept(s.kept, screening.observation.source);
      forall o | o in s.kept ensures o.position <= screening.observation.position {
        CameBefore(rows, o, k, parse);
      }
      OneMore(s.kept, screening.observation);
      ComesNow(init, r, screening.observation, k, parse);
    }
  }

  lemma NothingKept()
    ensures OneEach([])
  {}

  lemma ComesLater(init: seq<Row>, r: Row, o: Eligible, k: StreamKey, parse: string -> Number)
    ensures ComesFrom(init, o, k, parse) ==> ComesFrom(init + [r], o, k, parse)
  {
    hide Screen;
    assert forall q :: q in init ==> q in init + [r];
  }

  lemma ComesNow(init: seq<Row>, r: Row, o: Eligible, k: StreamKey, parse: string -> Number)
    requires Screen(r, k, parse) == Admitted(o)
    ensures ComesFrom(init + [r], o, k, parse)
  {
    hide Screen;
    assert r in init + [r];
  }

  /** A row kept earlier has a position not after the last one. */
  lemma CameBefore(rows: seq<Row>, o: Eligible, k: StreamKey, parse: string -> Number)
    requires Ascending(rows) && |rows| > 0 && ComesFrom(rows[..|rows| - 1], o, k, parse)
             && Screen(rows[|rows| - 1], k, parse).Admitted?
    ensures o.position <= Screen(rows[|rows| - 1], k, parse).observation.position
  {
    hide Screen, Precedes;
    var init, r := rows[..|rows| - 1], rows[|rows| - 1];
    var q :| q in init && Screen(q, k, parse) == Admitted(o);
    var j :| 0 <= j < |init| && init[j] == q;
    assert Precedes(rows[j], r);
    ScreenKeepsPosition(q, k, parse);
    ScreenKeepsPosition(r, k, parse);
    PrecedesMeans(q, r);
  }

  lemma OneMore(kept: seq<Eligible>, o: Eligible)
    requires OneEach(kept) && forall x :: x in kept ==> x.position <= o.position && x.source != o.source
    ensures OneEach(kept + [o])
  {}

  lemma NotKept(kept: seq<Eligible>, source: string)
    requires KeptOf(kept, source).None?
    ensures forall o :: o in kept ==> o.source != source
  {
    if |kept| > 0 {
      NotKept(kept[..|kept| - 1], source);
      assert kept == kept[..|kept| - 1] + [kept[|kept| - 1]];
    }
  }

  lemma ScreenKeepsPosition(r: Row, k: StreamKey, parse: string -> Number)
    ensures Screen(r, k, parse).Admitted? ==> Screen(r, k, parse).observation.position == r.position
  {}

  lemma PrecedesMeans(a: Row, b: Row)
    ensures Precedes(a, b) ==> a.position <= b.position
  {}

  // ---- the data-quality flag ----------------------------------------------------------------

  /** Both rows are admitted for one source and differ in sleep, productivity, time or mapping version. */
  predicate Contradict(a: Row, b: Row, k: StreamKey, parse: string -> Number) {
    && Screen(a, k, parse).Admitted? && Screen(b, k, parse).Admitted?
    && Screen(a, k, parse).observation.source == Screen(b, k, parse).observation.source
    && var o, p := Screen(a, k, parse).observation, Screen(b, k, parse).observation;
       || o.sleep != p.sleep || o.productivity != p.productivity || o.occurredAt != p.occurredAt
       || o.mappingVersion != p.mappingVersion
  }

  ghost predicate AnyContradict(rows: seq<Row>, k: StreamKey, parse: string -> Number) {
    exists a, b :: a in rows && b in rows && Contradict(a, b, k, parse)
  }

  lemma ContradictionSpreads(a: Row, b: Row, c: Row, k: StreamKey, parse: string -> Number)
    requires Contradict(a, b, k, parse) && Screen(c, k, parse).Admitted?
    requires Screen(c, k, parse).observation.source == Screen(a, k, parse).observation.source
    ensures Contradict(c, a, k, parse) || Contradict(c, b, k, parse)
    ensures Contradict(b, a, k, parse)
  {
    hide Screen;
  }

  lemma {:induction false} CriticalMeans(rows: seq<Row>, k: StreamKey, parse: string -> Number)
    ensures TakeAll(rows, k, parse).critical <==> AnyContradict(rows, k, parse)
  {
    hide Screen, Conflicts, Contradict;
    if |rows| == 0 { return; }
    var init, r := rows[..|rows| - 1], rows[|rows| - 1];
    assert rows == init + [r];
    CriticalMeans(init, k, parse);
    CriticalNow(init, r, k, parse);
    if AnyContradict(rows, k, parse) && !AnyContradict(init, k, parse) {
      var a, b :| a in rows && b in rows && Contradict(a, b, k, parse);
      OnlyNew(init, a, b, r, k, parse);
    }
  }

  /** The flag rises at a row exactly when it contradicts the kept row of its source. */
  lemma CriticalNow(init: seq<Row>, r: Row, k: StreamKey, parse: string -> Number)
    ensures var s, t := TakeAll(init, k, parse), Take(TakeAll(init, k, parse), r, k, parse);
            t.critical <==>
            || s.critical
            || exists first :: first in init && Contradict(first, r, k, parse) && IsFirst(init, first, k, parse)
  {
    hide Screen;
    if Screen(r, k, parse).Admitted? {
      var source := Screen(r, k, parse).observation.source;
      KeepsTheFirst(init, source, k, parse);
      FirstExists(init, source, k, parse);
    }
  }

  predicate IsFirst(rows: seq<Row>, r: Row, k: StreamKey, parse: string -> Number) {
    Screen(r, k, parse).Admitted? && FirstOf(rows, Screen(r, k, parse).observation.source, k, parse) == Some(r)
  }

  /**
   * If no two earlier rows contradict, a contradiction involves the new row, and then the kept row
   * contradicts it too.
   */
  lemma OnlyNew(init: seq<Row>, a: Row, b: Row, r: Row, k: StreamKey, parse: string -> Number)
    requires (a in init || a == r) && (b in init || b == r) && Contradict(a, b, k, parse)
             && !AnyContradict(init, k, parse)
    ensures exists first :: first in init && Contradict(first, r, k, parse) && IsFirst(init, first, k, parse)
  {
    hide Screen;
    var q := if a in init then a else b;
    var source := Screen(q, k, parse).observation.source;
    FirstExists(init, source, k, parse);
    assert AdmittedFor(q, source, k, parse);
    var first := FirstOf(init, source, k, parse).value;
    ContradictionSpreads(a, b, first, k, parse);
    assert !Contradict(first, q, k, parse);
    assert IsFirst(init, first, k, parse);
  }

  /**
   * The data-quality flag is raised exactly when two admissible rows of one source differ in what the
   * analysis uses.
   */
  lemma CriticalExactly(rows: seq<Row>, k: StreamKey, parse: string -> Number)
    ensures Select(rows, k, parse).critical <==> AnyContradict(rows, k, parse)
  {
    hide Contradict;
    CriticalMeans(Sorted(rows), k, parse);
    SameMembers(rows);
  }
}
