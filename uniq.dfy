/**
 * The de-duplication the loaders apply to the secondary ids of a batch
 * (lodash `uniq`): keep the first occurrence of every value, in order.
 */
module Uniqueness {

  ghost predicate NoDuplicates<T>(s: seq<T>) {
    forall i, j :: 0 <= i < j < |s| ==> s[i] != s[j]
  }

  /** The position of the first occurrence of `x` in `s`. */
  function FirstIndex<T(==)>(s: seq<T>, x: T): (k: nat)
    requires x in s
    ensures k < |s| && s[k] == x
    ensures forall j :: 0 <= j < k ==> s[j] != x
  {
    if s[0] == x then 0 else 1 + FirstIndex(s[1..], x)
  }

  /** `uniq(s)`: every value of `s` once, at the place where it first occurs. */
  function Uniq<T(==,!new)>(s: seq<T>): (r: seq<T>)
    ensures NoDuplicates(r)
    ensures forall x :: x in r <==> x in s
    ensures |r| <= |s|
  {
    if |s| == 0 then []
    else
      var u := Uniq(s[..|s| - 1]);
      if s[|s| - 1] in u then u else u + [s[|s| - 1]]
  }

  lemma FirstIndexInPrefix<T>(s: seq<T>, n: nat, x: T)
    requires n <= |s| && x in s[..n]
    ensures FirstIndex(s, x) == FirstIndex(s[..n], x)
  {
    var k := FirstIndex(s[..n], x);
    var m := FirstIndex(s, x);
    assert s[k] == x;
    assert m < n ==> s[..n][m] == x;
  }

  /** The values of `uniq(s)` appear in the order of their first occurrence in `s`. */
  lemma {:induction false} UniqKeepsFirstOccurrenceOrder<T(!new)>(s: seq<T>, i: nat, j: nat)
    requires i < j < |Uniq(s)|
    ensures FirstIndex(s, Uniq(s)[i]) < FirstIndex(s, Uniq(s)[j])
  {
    var n := |s| - 1;
    var p := s[..n];
    var u := Uniq(p);
    var x, y := Uniq(s)[i], Uniq(s)[j];
    if s[n] in u {
      assert Uniq(s) == u;
      UniqKeepsFirstOccurrenceOrder(p, i, j);
      FirstIndexInPrefix(s, n, x);
      FirstIndexInPrefix(s, n, y);
    } else if j < |u| {
      assert Uniq(s) == u + [s[n]];
      assert x == u[i] && y == u[j];
      UniqKeepsFirstOccurrenceOrder(p, i, j);
      FirstIndexInPrefix(s, n, x);
      FirstIndexInPrefix(s, n, y);
    } else {
      assert Uniq(s) == u + [s[n]];
      assert x == u[i] && x in p;
      assert y == s[n] && y !in p;
      FirstIndexInPrefix(s, n, x);
    }
  }

  /** A sequence without duplicates is left as it is. */
  lemma {:induction false} UniqOfDistinct<T(!new)>(s: seq<T>)
    requires NoDuplicates(s)
    ensures Uniq(s) == s
  {
    if |s| > 0 {
      var n := |s| - 1;
      var p := s[..n];
      assert NoDuplicates(p);
      UniqOfDistinct(p);
      assert s[n] !in p;
      assert p + [s[n]] == s;
    }
  }

  /** De-duplicating twice is the same as de-duplicating once. */
  lemma UniqIdempotent<T(!new)>(s: seq<T>)
    ensures Uniq(Uniq(s)) == Uniq(s)
  {
    UniqOfDistinct(Uniq(s));
  }
}
