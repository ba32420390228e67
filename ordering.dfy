/**
 * Sorted insertion, the means by which the model produces the rows of an `ORDER BY` query.
 * A key function gives each row its sort key; rows are kept in ascending key order.
 */
module Ordering {

  ghost predicate SortedBy<T>(s: seq<T>, key: T -> int)
  {
    forall i, j :: 0 <= i < j < |s| ==> key(s[i]) <= key(s[j])
  }

  ghost predicate StrictlySortedBy<T>(s: seq<T>, key: T -> int)
  {
    forall i, j :: 0 <= i < j < |s| ==> key(s[i]) < key(s[j])
  }

  /** Puts `x` in front of the first row whose key is at least its own. */
  function InsertBy<T>(s: seq<T>, x: T, key: T -> int): (r: seq<T>)
    requires SortedBy(s, key)
    ensures SortedBy(r, key)
    ensures multiset(r) == multiset(s) + multiset{x}
    ensures forall y :: y in r ==> y in s || y == x
    decreases |s|
  {
    if s == [] || key(x) <= key(s[0]) then [x] + s
    else
      var tail := s[1..];
      assert SortedBy(tail, key);
      var rest := InsertBy(tail, x, key);
      assert s == [s[0]] + tail;
      assert forall y :: y in rest ==> key(s[0]) <= key(y) by {
        forall y | y in rest ensures key(s[0]) <= key(y) {
          if y != x {
            var m :| 0 <= m < |tail| && tail[m] == y;
            assert s[m + 1] == y;
          }
        }
      }
      var r := [s[0]] + rest;
      ConsSorted(s[0], rest, key);
      assert multiset(r) == multiset{s[0]} + multiset(rest);
      assert multiset(s) == multiset{s[0]} + multiset(tail);
      r
  }

  lemma ConsSorted<T>(y: T, s: seq<T>, key: T -> int)
    requires SortedBy(s, key)
    requires forall z :: z in s ==> key(y) <= key(z)
    ensures SortedBy([y] + s, key)
  {
    var r := [y] + s;
    forall i, j | 0 <= i < j < |r| ensures key(r[i]) <= key(r[j]) {
      assert r[j] == s[j - 1] && r[j] in s;
      if i > 0 {
        assert r[i] == s[i - 1];
      }
    }
  }

  lemma StrictlySortedIsSorted<T>(s: seq<T>, key: T -> int)
    requires StrictlySortedBy(s, key)
    ensures SortedBy(s, key)
  {
  }

  lemma MultisetAddFresh<T>(a: set<T>, x: T)
    requires x !in a
    ensures multiset(a + {x}) == multiset(a) + multiset{x}
  {
  }

  /** A row whose key is below every other row's can go in front of a strictly sorted sequence. */
  lemma PrependStrict<T>(x: T, s: seq<T>, key: T -> int)
    requires StrictlySortedBy(s, key)
    requires forall y :: y in s ==> key(x) < key(y)
    ensures StrictlySortedBy([x] + s, key)
  {
    var r := [x] + s;
    forall i, j | 0 <= i < j < |r| ensures key(r[i]) < key(r[j]) {
      assert r[j] == s[j - 1] && r[j] in s;
      if i > 0 {
        assert r[i] == s[i - 1];
      }
    }
  }

  /** Inserting a row whose key no row has keeps the order strict. */
  lemma {:induction false} InsertStrict<T>(s: seq<T>, x: T, key: T -> int)
    requires StrictlySortedBy(s, key)
    requires forall y :: y in s ==> key(y) != key(x)
    ensures StrictlySortedBy(InsertBy(s, x, key), key)
    decreases |s|
  {
    if s == [] || key(x) <= key(s[0]) {
      forall y | y in s ensures key(x) < key(y) {
        var m :| 0 <= m < |s| && s[m] == y;
        assert key(s[0]) <= key(s[m]);
      }
      PrependStrict(x, s, key);
    } else {
      var tail := s[1..];
      assert s == [s[0]] + tail;
      assert StrictlySortedBy(tail, key);
      InsertStrict(tail, x, key);
      var rest := InsertBy(tail, x, key);
      forall y | y in rest ensures key(s[0]) < key(y) {
        if y != x {
          var m :| 0 <= m < |tail| && tail[m] == y;
          assert s[m + 1] == y;
        }
      }
      PrependStrict(s[0], rest, key);
    }
  }
}
