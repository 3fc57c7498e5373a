/** The canonical text an evidence fingerprint hashes, and when it identifies its inputs. */
module Fingerprint {
  import opened Common

  datatype Inputs = Inputs(
    tenantId: string, ownerId: string, applicationId: string, experimentId: string, protocolVersion: string,
    phase: string, cutoff: nat, sourceEventIds: seq<string>, analysisMethod: string, parameters: string)

  // ---- the encoding -------------------------------------------------------------------------

  function InsertOnce(s: string, sorted: seq<string>): seq<string> {
    if |sorted| == 0 then [s]
    else if s == sorted[0] then sorted
    else if StringLeq(s, sorted[0]) then [s] + sorted
    else [sorted[0]] + InsertOnce(s, sorted[1..])
  }

  /** The distinct texts in ascending order. */
  function SortedSet(ids: seq<string>): seq<string> {
    if |ids| == 0 then [] else InsertOnce(ids[0], SortedSet(ids[1..]))
  }

  function Join(c: char, parts: seq<string>): string {
    if |parts| == 0 then ""
    else if |parts| == 1 then parts[0]
    else parts[0] + [c] + Join(c, parts[1..])
  }

  function Decimal(n: nat): string {
    if n < 10 then [DIGITS[n]] else Decimal(n / 10) + [DIGITS[n % 10]]
  }

  const DIGITS := "0123456789"

  function Fields(i: Inputs): seq<string> {
    [i.tenantId, i.ownerId, i.applicationId, i.experimentId, i.protocolVersion, i.phase, Decimal(i.cutoff),
     Join(',', SortedSet(i.sourceEventIds)), i.analysisMethod, i.parameters]
  }

  function Material(i: Inputs): string { Join('\n', Fields(i)) }

  function SourceMaterial(ids: seq<string>): string { Join('\n', SortedSet(ids)) }

  // ---- sorted sets --------------------------------------------------------------------------

  ghost predicate StrictlyAscending(s: seq<string>) {
    forall i, j :: 0 <= i < j < |s| ==> StringLeq(s[i], s[j]) && s[i] != s[j]
  }

  ghost predicate SameSet(a: seq<string>, b: seq<string>) { forall x :: x in a <==> x in b }

  lemma {:induction false} InsertOnceSorts(s: string, sorted: seq<string>)
    requires StrictlyAscending(sorted)
    ensures StrictlyAscending(InsertOnce(s, sorted))
    ensures forall x :: x in InsertOnce(s, sorted) <==> x in sorted || x == s
  {
    hide StringLeq;
    if |sorted| == 0 || s == sorted[0] { return; }
    assert sorted == [sorted[0]] + sorted[1..];
    if StringLeq(s, sorted[0]) {
      forall j | 0 <= j < |sorted| ensures StringLeq(s, sorted[j]) && s != sorted[j] {
        if j > 0 {
          StringLeqTransitive(s, sorted[0], sorted[j]);
          if s == sorted[j] { StringLeqAntisymmetric(s, sorted[0]); }
        }
      }
    } else {
      StringLeqTotal(s, sorted[0]);
      InsertOnceSorts(s, sorted[1..]);
      var rest := InsertOnce(s, sorted[1..]);
      forall j | 0 <= j < |rest| ensures StringLeq(sorted[0], rest[j]) && sorted[0] != rest[j] {
        assert rest[j] in rest;
      }
    }
  }

  lemma {:induction false} SortedSetSorts(ids: seq<string>)
    ensures StrictlyAscending(SortedSet(ids)) && SameSet(SortedSet(ids), ids)
  {
    if |ids| > 0 {
      SortedSetSorts(ids[1..]);
      InsertOnceSorts(ids[0], SortedSet(ids[1..]));
      assert ids == [ids[0]] + ids[1..];
    }
  }

  lemma {:induction false} AscendingSetIsUnique(a: seq<string>, b: seq<string>)
    requires StrictlyAscending(a) && StrictlyAscending(b) && SameSet(a, b)
    ensures a == b
  {
    assert forall i :: 0 <= i < |a| ==> a[i] in b;
    assert forall i :: 0 <= i < |b| ==> b[i] in a;
    if |a| == 0 || |b| == 0 { return; }
    hide StringLeq;
    HeadsAgree(a, b);
    TailOf(a);
    TailOf(b);
    AscendingSetIsUnique(a[1..], b[1..]);
  }

  lemma HeadsAgree(a: seq<string>, b: seq<string>)
    requires StrictlyAscending(a) && StrictlyAscending(b) && SameSet(a, b) && |a| > 0 && |b| > 0
    ensures a[0] == b[0]
  {
    hide StringLeq;
    assert a[0] in b && b[0] in a;
    if a[0] != b[0] { StringLeqAntisymmetric(a[0], b[0]); }
  }

  lemma TailOf(a: seq<string>)
    requires StrictlyAscending(a) && |a| > 0
    ensures StrictlyAscending(a[1..]) && a == [a[0]] + a[1..] && a[0] !in a[1..]
    ensures forall x :: x in a[1..] <==> x in a && x != a[0]
  {
    hide StringLeq;
    assert a == [a[0]] + a[1..];
  }

  // ---- order and repetition -----------------------------------------------------------------

  /** The hashed texts depend on the set of source events only, not on their order or repetition. */
  lemma OrderAndRepetitionIgnored(i: Inputs, ids: seq<string>)
    requires SameSet(i.sourceEventIds, ids)
    ensures Material(i.(sourceEventIds := ids)) == Material(i)
    ensures SourceMaterial(ids) == SourceMaterial(i.sourceEventIds)
  {
    SortedSetSorts(ids);
    SortedSetSorts(i.sourceEventIds);
    AscendingSetIsUnique(SortedSet(ids), SortedSet(i.sourceEventIds));
  }

  /** The hashed text, spelled out: the ten inputs in their order, one on each line, the events on one line. */
  lemma MaterialSpelled(i: Inputs)
    ensures Material(i) ==
            i.tenantId + "\n" + (i.ownerId + "\n" + (i.applicationId + "\n" + (i.experimentId + "\n"
            + (i.protocolVersion + "\n" + (i.phase + "\n" + (Decimal(i.cutoff) + "\n"
            + (Join(',', SortedSet(i.sourceEventIds)) + "\n" + (i.analysisMethod + "\n" + i.parameters))))))))
  {
    hide Join, Decimal, SortedSet;
    var f := Fields(i);
    forall k | 0 <= k < 9 ensures Join('\n', f[k..]) == f[k] + "\n" + Join('\n', f[k + 1..]) { JoinedFrom('\n', f, k); }
    LastOf(f, 9);
    assert f[0..] == f;
    assert Join('\n', f[8 + 1..]) == f[9] && Join('\n', f[7 + 1..]) == f[8] + "\n" + f[9];
    assert Join('\n', f[7..]) == f[7] + "\n" + (f[8] + "\n" + f[9]);
    assert Join('\n', f[4..]) == f[4] + "\n" + (f[5] + "\n" + (f[6] + "\n" + Join('\n', f[7..])));
    assert Join('\n', f[1..]) == f[1] + "\n" + (f[2] + "\n" + (f[3] + "\n" + Join('\n', f[4..])));
  }

  lemma JoinedFrom(c: char, parts: seq<string>, k: nat)
    requires k + 1 < |parts|
    ensures Join(c, parts[k..]) == parts[k] + [c] + Join(c, parts[k + 1..])
  {
    assert parts[k..][1..] == parts[k + 1..];
  }

  lemma LastOf(parts: seq<string>, k: nat)
    requires k + 1 == |parts|
    ensures forall c :: Join(c, parts[k..]) == parts[k]
  {}

  /** The number a text of decimal digits stands for. */
  function ValueOf(s: string): int {
    if |s| == 0 then 0 else 10 * ValueOf(s[..|s| - 1]) + (s[|s| - 1] as int - '0' as int)
  }

  /** A cutoff is written in decimal digits without leading zeros. */
  lemma {:induction false} DecimalIsTheNumber(n: nat)
    ensures ValueOf(Decimal(n)) == n && (forall d :: d in Decimal(n) ==> '0' <= d <= '9')
    ensures |Decimal(n)| > 0 && (n > 0 ==> Decimal(n)[0] != '0')
  {
    if n >= 10 { DecimalIsTheNumber(n / 10); }
    assert DIGITS[n % 10] as int == '0' as int + n % 10;
  }

  // ---- decoding -----------------------------------------------------------------------------

  predicate Free(c: char, s: string) { c !in s }

  /** A text split at the first separator splits in one way only. */
  lemma {:induction false} SplitsOnce(c: char, a: string, x: string, b: string, y: string)
    requires Free(c, a) && Free(c, b) && a + [c] + x == b + [c] + y
    ensures a == b && x == y
  {
    var s, t := a + [c] + x, b + [c] + y;
    assert (forall i :: 0 <= i < |a| ==> s[i] == a[i]) && (forall i :: 0 <= i < |b| ==> t[i] == b[i]);
    assert s[|a|] == c && t[|b|] == c;
    assert |a| == |b|;
    assert s[..|a|] == a && t[..|b|] == b && s[|a| + 1..] == x && t[|b| + 1..] == y;
  }

  /** Joined lists of one length, every part but the last free of the separator, are joined from the same parts. */
  lemma {:induction false} JoinDetermines(c: char, ps: seq<string>, qs: seq<string>)
    requires |ps| == |qs| > 0 && Join(c, ps) == Join(c, qs)
    requires forall i :: 0 <= i < |ps| - 1 ==> Free(c, ps[i]) && Free(c, qs[i])
    ensures ps == qs
  {
    if |ps| > 1 {
      SplitsOnce(c, ps[0], Join(c, ps[1..]), qs[0], Join(c, qs[1..]));
      JoinDetermines(c, ps[1..], qs[1..]);
      assert ps == [ps[0]] + ps[1..] && qs == [qs[0]] + qs[1..];
    }
  }

  predicate Names(c: char, parts: seq<string>) { forall i :: 0 <= i < |parts| ==> Free(c, parts[i]) && |parts[i]| > 0 }

  lemma {:induction false} JoinedLength(c: char, parts: seq<string>)
    requires Names(c, parts)
    ensures |parts| > 0 ==> |Join(c, parts)| > 0
    ensures |parts| == 1 ==> Free(c, Join(c, parts))
    ensures |parts| > 1 ==> !Free(c, Join(c, parts))
  {
    if |parts| > 1 { assert Join(c, parts)[|parts[0]|] == c; }
  }

  /** Non-empty parts free of the separator can be read back whatever their number. */
  lemma {:induction false} JoinDeterminesNames(c: char, ps: seq<string>, qs: seq<string>)
    requires Names(c, ps) && Names(c, qs) && Join(c, ps) == Join(c, qs)
    ensures ps == qs
  {
    JoinedLength(c, ps);
    JoinedLength(c, qs);
    if |ps| > 1 {
      SplitsOnce(c, ps[0], Join(c, ps[1..]), qs[0], Join(c, qs[1..]));
      JoinDeterminesNames(c, ps[1..], qs[1..]);
      assert ps == [ps[0]] + ps[1..] && qs == [qs[0]] + qs[1..];
    }
  }

  lemma {:induction false} DecimalDetermines(m: nat, n: nat)
    requires Decimal(m) == Decimal(n)
    ensures m == n
    decreases m
  {
    LastDigit(m);
    LastDigit(n);
    DecimalLength(m);
    DecimalLength(n);
    if m >= 10 { DecimalDetermines(m / 10, n / 10); }
  }

  lemma LastDigit(n: nat)
    ensures |Decimal(n)| > 0 && Decimal(n)[|Decimal(n)| - 1] == DIGITS[n % 10]
    ensures n >= 10 ==> Decimal(n)[..|Decimal(n)| - 1] == Decimal(n / 10)
    ensures forall i, j :: 0 <= i < 10 && 0 <= j < 10 && DIGITS[i] == DIGITS[j] ==> i == j
  {}

  lemma {:induction false} DecimalLength(n: nat)
    ensures |Decimal(n)| == 1 <==> n < 10
    ensures Free('\n', Decimal(n))
  {
    if n >= 10 { DecimalLength(n / 10); LastDigit(n / 10); }
  }

  lemma {:induction false} JoinIsFree(c: char, sep: char, parts: seq<string>)
    requires c != sep && forall i :: 0 <= i < |parts| ==> Free(c, parts[i])
    ensures Free(c, Join(sep, parts))
  {
    if |parts| > 1 { JoinIsFree(c, sep, parts[1..]); }
  }

  /** No line break in any field before the parameters; source event ids non-empty, without commas or line breaks. */
  predicate Clean(i: Inputs) {
    && Free('\n', i.tenantId) && Free('\n', i.ownerId) && Free('\n', i.applicationId) && Free('\n', i.experimentId)
    && Free('\n', i.protocolVersion) && Free('\n', i.phase) && Free('\n', i.analysisMethod)
    && Names(',', i.sourceEventIds) && Names('\n', i.sourceEventIds)
  }

  lemma CleanFields(i: Inputs)
    requires Clean(i)
    ensures Names(',', SortedSet(i.sourceEventIds)) && Names('\n', SortedSet(i.sourceEventIds))
    ensures forall n :: 0 <= n < 9 ==> Free('\n', Fields(i)[n])
  {
    SortedSetSorts(i.sourceEventIds);
    var ids := SortedSet(i.sourceEventIds);
    forall n | 0 <= n < |ids| ensures Free(',', ids[n]) && Free('\n', ids[n]) && |ids[n]| > 0 {
      assert ids[n] in ids;
      var m :| 0 <= m < |i.sourceEventIds| && i.sourceEventIds[m] == ids[n];
    }
    JoinIsFree('\n', ',', ids);
    DecimalLength(i.cutoff);
  }

  /** For clean inputs the hashed text determines all ten, the source events as a set. */
  lemma MaterialDetermines(i: Inputs, j: Inputs)
    requires Clean(i) && Clean(j) && Material(i) == Material(j)
    ensures j == i.(sourceEventIds := j.sourceEventIds) && SameSet(i.sourceEventIds, j.sourceEventIds)
  {
    hide Clean, Join, SortedSet, Decimal, Names;
    CleanFields(i);
    CleanFields(j);
    var f, g := Fields(i), Fields(j);
    JoinDetermines('\n', f, g);
    assert forall n :: 0 <= n < 10 ==> f[n] == g[n];
    assert f[0] == g[0] && f[1] == g[1] && f[2] == g[2] && f[3] == g[3] && f[4] == g[4] && f[5] == g[5];
    assert f[6] == g[6] && f[7] == g[7] && f[8] == g[8] && f[9] == g[9];
    DecimalDetermines(i.cutoff, j.cutoff);
    JoinDeterminesNames(',', SortedSet(i.sourceEventIds), SortedSet(j.sourceEventIds));
    SortedSetSorts(i.sourceEventIds);
    SortedSetSorts(j.sourceEventIds);
  }

  /** Likewise the source hash determines the set of non-empty ids without line breaks. */
  lemma SourceMaterialDetermines(a: seq<string>, b: seq<string>)
    requires Names('\n', a) && Names('\n', b) && SourceMaterial(a) == SourceMaterial(b)
    ensures SameSet(a, b)
  {
    SortedSetSorts(a);
    SortedSetSorts(b);
    NamesOfSet(a);
    NamesOfSet(b);
    JoinDeterminesNames('\n', SortedSet(a), SortedSet(b));
  }

  lemma NamesOfSet(a: seq<string>)
    requires Names('\n', a)
    ensures Names('\n', SortedSet(a))
  {
    SortedSetSorts(a);
    var ids := SortedSet(a);
    forall n | 0 <= n < |ids| ensures Free('\n', ids[n]) && |ids[n]| > 0 {
      assert ids[n] in ids;
      var m :| 0 <= m < |a| && a[m] == ids[n];
    }
  }

  // ---- what cleanliness excludes ------------------------------------------------------------

  const SAMPLE := Inputs("t", "o", "a", "x", "1.0", "p", 7, [], "m", "{}")

  /** A line break moves between fields unseen. */
  lemma LineBreaksCollide()
    ensures Material(SAMPLE.(tenantId := "t\nu", ownerId := "o"))
            == Material(SAMPLE.(tenantId := "t", ownerId := "u\no"))
  {
    hide Join;
    var rest := Fields(SAMPLE)[2..];
    TwoThenRest(SAMPLE.(tenantId := "t\nu", ownerId := "o"), rest);
    TwoThenRest(SAMPLE.(tenantId := "t", ownerId := "u\no"), rest);
    var tail := Join('\n', rest);
    assert "t\nu" + ['\n'] + ("o" + ['\n'] + tail) == "t" + ['\n'] + ("u\no" + ['\n'] + tail);
  }

  lemma TwoThenRest(i: Inputs, rest: seq<string>)
    requires rest == Fields(i)[2..]
    ensures Material(i) == i.tenantId + ['\n'] + (i.ownerId + ['\n'] + Join('\n', rest))
  {
    hide Decimal, SortedSet;
    var f := Fields(i);
    var g := f[1..];
    assert g[1..] == rest && g[0] == i.ownerId && f[0] == i.tenantId && |g| == 9;
    assert Join('\n', g) == g[0] + ['\n'] + Join('\n', g[1..]);
    assert Join('\n', f) == f[0] + ['\n'] + Join('\n', g);
  }

  /** An empty id counts for none; a comma makes one id of two. */
  lemma EmptyIdsAndCommasCollide()
    ensures Material(SAMPLE.(sourceEventIds := [""])) == Material(SAMPLE)
    ensures Material(SAMPLE.(sourceEventIds := ["e,f"])) == Material(SAMPLE.(sourceEventIds := ["e", "f"]))
  {
    EmptyId();
    TwoIds();
  }

  lemma EmptyId()
    ensures Join(',', SortedSet([""])) == Join(',', SortedSet([]))
  {
    assert [""][1..] == [];
    assert SortedSet([""]) == [""];
  }

  lemma TwoIds()
    ensures Join(',', SortedSet(["e,f"])) == Join(',', SortedSet(["e", "f"]))
  {
    assert ["e,f"][1..] == [] && ["e", "f"][1..] == ["f"] && ["f"][1..] == [];
    assert SortedSet(["f"]) == ["f"] && SortedSet(["e,f"]) == ["e,f"];
    assert SortedSet(["e", "f"]) == ["e", "f"];
    assert Join(',', ["e", "f"]) == "e" + [','] + "f" == "e,f";
  }
}
