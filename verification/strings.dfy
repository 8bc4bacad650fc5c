/** Python's ordering of `str` values and `sorted()` over a set of them.
    Python compares strings code point by code point, and a proper prefix
    sorts before the longer string; Dafny's `char` order is the code-point
    order. */
module Strings {

  /** `a < b` on Python strings. */
  predicate StrLt(a: string, b: string)
  {
    if a == [] then b != []
    else if b == [] then false
    else a[0] < b[0] || (a[0] == b[0] && StrLt(a[1..], b[1..]))
  }

  lemma StrLtIrreflexive(a: string)
    ensures !StrLt(a, a)
  {
  }

  lemma StrLtTotal(a: string, b: string)
    ensures a == b || StrLt(a, b) || StrLt(b, a)
  {
  }

  lemma StrLtAsymmetric(a: string, b: string)
    ensures !(StrLt(a, b) && StrLt(b, a))
  {
  }

  lemma StrLtTransitive(a: string, b: string, c: string)
    requires StrLt(a, b) && StrLt(b, c)
    ensures StrLt(a, c)
  {
  }

  /** Strictly ascending, hence also free of duplicates. */
  predicate StrictlySorted(s: seq<string>)
  {
    forall i, j :: 0 <= i < j < |s| ==> StrLt(s[i], s[j])
  }

  /** `k` is the least element of `s`. */
  predicate IsLeast(k: string, s: set<string>)
  {
    k in s && forall k' :: k' in s && k' != k ==> StrLt(k, k')
  }

  lemma LeastUnique(s: set<string>)
    ensures forall a, b :: IsLeast(a, s) && IsLeast(b, s) ==> a == b
  {
    forall a, b | IsLeast(a, s) && IsLeast(b, s) ensures a == b {
      if a != b { StrLtAsymmetric(a, b); }
    }
  }

  lemma {:induction false} LeastExists(s: set<string>)
    requires s != {}
    ensures exists k :: IsLeast(k, s)
    decreases |s|
  {
    var x :| x in s;
    if s == {x} {
      assert IsLeast(x, s);
    } else {
      var rest := s - {x};
      LeastExists(rest);
      var m :| IsLeast(m, rest);
      StrLtTotal(x, m);
      if StrLt(x, m) {
        forall k' | k' in s && k' != x ensures StrLt(x, k') {
          if k' != m { StrLtTransitive(x, m, k'); }
        }
        assert IsLeast(x, s);
      } else {
        assert IsLeast(m, s);
      }
    }
  }

  /** `sorted(s)` for a set of strings: its elements in ascending order. */
  function SortedStrings(s: set<string>): (r: seq<string>)
    ensures |r| == |s|
    ensures forall k :: k in r <==> k in s
    ensures StrictlySorted(r)
    decreases s
  {
    if s == {} then []
    else
      LeastExists(s);
      LeastUnique(s);
      var k :| IsLeast(k, s);
      var rest := SortedStrings(s - {k});
      assert forall i :: 0 <= i < |rest| ==> StrLt(k, rest[i]);
      [k] + rest
  }

  /** There is only one strictly sorted listing of a set of strings, so
      `sorted()` is pinned down by its result's properties. */
  lemma {:induction false} StrictlySortedUnique(a: seq<string>, b: seq<string>)
    requires StrictlySorted(a) && StrictlySorted(b)
    requires forall k :: k in a <==> k in b
    ensures a == b
    decreases |a|
  {
    assert a != [] ==> a[0] in b;
    assert b != [] ==> b[0] in a;
    if a != [] && b != [] {
      assert a[0] in b && b[0] in a;
      if a[0] != b[0] {
        var i :| 0 <= i < |a| && a[i] == b[0];
        var j :| 0 <= j < |b| && b[j] == a[0];
        assert StrLt(a[0], b[0]) && StrLt(b[0], a[0]);
        StrLtAsymmetric(a[0], b[0]);
      }
      forall k ensures k in a[1..] <==> k in b[1..] {
        if k in a[1..] {
          var i :| 1 <= i < |a| && a[i] == k;
          StrLtIrreflexive(k);
          assert k in a && k in b;
          var j :| 0 <= j < |b| && b[j] == k;
          assert j != 0;
          assert b[1..][j - 1] == k;
        }
        if k in b[1..] {
          var j :| 1 <= j < |b| && b[j] == k;
          StrLtIrreflexive(k);
          assert k in b && k in a;
          var i :| 0 <= i < |a| && a[i] == k;
          assert i != 0;
          assert a[1..][i - 1] == k;
        }
      }
      StrictlySortedUnique(a[1..], b[1..]);
      assert a == [a[0]] + a[1..] && b == [b[0]] + b[1..];
    }
  }

  /** `sorted(s)` is the strictly sorted listing of `s`. */
  lemma SortedStringsIs(s: set<string>, r: seq<string>)
    requires StrictlySorted(r)
    requires forall k :: k in r <==> k in s
    ensures SortedStrings(s) == r
  {
    StrictlySortedUnique(SortedStrings(s), r);
  }
}
