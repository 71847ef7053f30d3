/** Facts about sequences that several components share. */
module Sequences {

  ghost predicate Distinct<T>(s: seq<T>) {
    forall i, j :: 0 <= i < j < |s| ==> s[i] != s[j]
  }

  /** The position of the first occurrence. */
  function IndexOf<T(==)>(s: seq<T>, x: T): (i: nat)
    requires x in s
    ensures i < |s| && s[i] == x && x !in s[..i]
  {
    if s[0] == x then 0 else 1 + IndexOf(s[1..], x)
  }

  function WithoutAt<T>(s: seq<T>, i: nat): seq<T>
    requires i < |s|
  {
    s[..i] + s[i + 1..]
  }

  /** Somewhere in the sequence y comes after x. */
  ghost predicate Before<T(!new)>(s: seq<T>, x: T, y: T) {
    exists i, j :: 0 <= i < j < |s| && s[i] == x && s[j] == y
  }

  /** Whatever comes later in r comes later in s as well. */
  ghost predicate InOrderOf<T(!new)>(r: seq<T>, s: seq<T>) {
    forall x, y :: Before(r, x, y) ==> Before(s, x, y)
  }

  /** Both sequences grow by the same last element, or only the second one grows. */
  lemma OrderGrows<T(!new)>(r: seq<T>, s: seq<T>, x: T)
    requires InOrderOf(r, s) && forall y <- r :: y in s
    ensures InOrderOf(r, s + [x]) && InOrderOf(r + [x], s + [x])
  {
    forall a, b | Before(s, a, b) ensures Before(s + [x], a, b) {
      var i, j :| 0 <= i < j < |s| && s[i] == a && s[j] == b;
      assert (s + [x])[i] == a && (s + [x])[j] == b;
    }
    forall a, b | Before(r + [x], a, b) ensures Before(s + [x], a, b) {
      var i, j :| 0 <= i < j < |r + [x]| && (r + [x])[i] == a && (r + [x])[j] == b;
      if j < |r| {
        assert Before(r, a, b);
      } else {
        assert a in r && a in s;
        var k :| 0 <= k < |s| && s[k] == a;
        assert (s + [x])[k] == a && (s + [x])[|s|] == x;
      }
    }
  }

  /** Without repeats, removing one position removes that element and nothing else. */
  lemma WithoutAtIs<T>(s: seq<T>, i: nat)
    requires Distinct(s) && i < |s|
    ensures Distinct(WithoutAt(s, i))
    ensures forall x :: x in WithoutAt(s, i) <==> x in s && x != s[i]
  {
  }
}
