/** Result and option types, and the order in which the engine sorts strings. */
module Common {

  datatype Option<+T> = None | Some(value: T)

  /** The outcome of a transaction: a new state, or the error that rolled it back. */
  datatype Result<+T, +E> = Ok(value: T) | Err(error: E)
  {
    predicate IsFailure() { Err? }
    function PropagateFailure<U>(): Result<U, E> requires Err? { Err(error) }
    function Extract(): T requires Ok? { value }
  }

  function Max(x: int, y: int): int { if x < y then y else x }

  /** Lexicographic order by code point: what `sorted` uses on `str`. */
  predicate StringLeq(a: string, b: string) {
    |a| == 0 || (|b| > 0 && (a[0] < b[0] || (a[0] == b[0] && StringLeq(a[1..], b[1..]))))
  }

  lemma StringLeqTotal(a: string, b: string)
    ensures StringLeq(a, b) || StringLeq(b, a)
  {
    if |a| > 0 && |b| > 0 && a[0] == b[0] { StringLeqTotal(a[1..], b[1..]); }
  }

  lemma {:induction false} StringLeqAntisymmetric(a: string, b: string)
    requires StringLeq(a, b) && StringLeq(b, a)
    ensures a == b
  {
    if |a| > 0 && |b| > 0 {
      StringLeqAntisymmetric(a[1..], b[1..]);
      assert a == [a[0]] + a[1..] && b == [b[0]] + b[1..];
    }
  }

  lemma {:induction false} StringLeqTransitive(a: string, b: string, c: string)
    requires StringLeq(a, b) && StringLeq(b, c)
    ensures StringLeq(a, c)
  {
    if |a| > 0 && a[0] == b[0] == c[0] { StringLeqTransitive(a[1..], b[1..], c[1..]); }
  }

  /** The first difference decides, and a text comes before its extensions. */
  lemma {:induction false} FirstDifferenceDecides(a: string, b: string, i: nat)
    requires i <= |a| && i <= |b| && a[..i] == b[..i]
    ensures i == |a| ==> StringLeq(a, b)
    ensures i < |a| && i == |b| ==> !StringLeq(a, b)
    ensures i < |a| && i < |b| && a[i] != b[i] ==> (StringLeq(a, b) <==> a[i] < b[i])
  {
    if i > 0 {
      assert a[..i][0] == a[0] && b[..i][0] == b[0];
      assert a[1..][..i - 1] == a[..i][1..] && b[1..][..i - 1] == b[..i][1..];
      FirstDifferenceDecides(a[1..], b[1..], i - 1);
    }
  }

  /** The least element. */
  method Smallest(s: set<int>) returns (first: int)
    requires s != {}
    ensures first in s && forall d :: d in s ==> first <= d
  {
    SomeElement(s);
    first :| first in s;
    var left := s - {first};
    while left != {}
      invariant left <= s && first in s && forall d :: d in s && d !in left ==> first <= d
      decreases |left|
    {
      SomeElement(left);
      var d :| d in left;
      if d < first { first := d; }
      left := left - {d};
    }
  }

  lemma SomeElement(s: set<int>)
    requires s != {}
    ensures exists d :: d in s
  {
    assert (forall d :: d !in s) ==> s == {};
  }
}
