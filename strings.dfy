/**
 * The two JavaScript string operations the backend relies on: `String.prototype.split`
 * with a one-character separator (the bearer-token parser) and `Array.prototype.join`
 * (the artist list of a search result).
 */
module Strings {

  /** Position of the first `c` in `s`, or `|s|` when `s` has none. */
  function IndexOf(s: string, c: char): (i: nat)
    ensures i <= |s|
    ensures i < |s| ==> s[i] == c
    ensures c !in s[..i]
    decreases |s|
  {
    if s == [] then 0
    else if s[0] == c then 0
    else
      var j := IndexOf(s[1..], c);
      assert s[..j + 1] == [s[0]] + s[1..][..j];
      j + 1
  }

  /**
   * JavaScript's `s.split(sep)`: the pieces between consecutive separators, so that
   * there is always one piece more than there are separators (`"".split(" ")` is `[""]`).
   */
  function Split(s: string, sep: char): (parts: seq<string>)
    ensures |parts| >= 1
    ensures forall i :: 0 <= i < |parts| ==> sep !in parts[i]
    decreases |s|
  {
    var i := IndexOf(s, sep);
    if i == |s| then [s] else [s[..i]] + Split(s[i + 1..], sep)
  }

  /** JavaScript's `parts.join(sep)`. */
  function Join(parts: seq<string>, sep: string): (r: string)
    ensures |parts| >= 1 ==> |r| == TotalLength(parts) + |sep| * (|parts| - 1)
    ensures |parts| >= 1 ==> r[..|parts[0]|] == parts[0]
    ensures |parts| >= 2 ==> r[|parts[0]|..|parts[0]| + |sep|] == sep
    decreases |parts|
  {
    if |parts| == 0 then ""
    else if |parts| == 1 then parts[0]
    else
      var rest := Join(parts[1..], sep);
      assert |sep| * (|parts| - 1) == |sep| * (|parts| - 2) + |sep|;
      parts[0] + sep + rest
  }

  /** Total number of characters in `parts`. */
  function TotalLength(parts: seq<string>): (n: nat)
    ensures parts == [] ==> n == 0
    ensures forall i :: 0 <= i < |parts| ==> |parts[i]| <= n
  {
    if parts == [] then 0 else |parts[0]| + TotalLength(parts[1..])
  }

  lemma {:induction false} IndexOfAbsent(a: string, c: char)
    requires c !in a
    ensures IndexOf(a, c) == |a|
  {
    if a != [] {
      assert c !in a[1..];
      IndexOfAbsent(a[1..], c);
    }
  }

  lemma {:induction false} IndexOfFirst(a: string, c: char, b: string)
    requires c !in a
    ensures IndexOf(a + [c] + b, c) == |a|
  {
    if a != [] {
      assert (a + [c] + b)[1..] == a[1..] + [c] + b;
      assert c !in a[1..];
      IndexOfFirst(a[1..], c, b);
    }
  }

  /** A string with no separator is a single piece. */
  lemma SplitAbsent(a: string, c: char)
    requires c !in a
    ensures Split(a, c) == [a]
  {
    IndexOfAbsent(a, c);
  }

  /** Splitting at the first separator: the text before it is the first piece, the rest splits on its own. */
  lemma SplitAfterFirst(a: string, c: char, b: string)
    requires c !in a
    ensures Split(a + [c] + b, c) == [a] + Split(b, c)
  {
    var s := a + [c] + b;
    IndexOfFirst(a, c, b);
    assert s[..|a|] == a;
    assert s[|a| + 1..] == b;
  }

  /** A character other than the separator joins the first piece. */
  lemma {:induction false} SplitCons(x: char, s: string, c: char)
    requires x != c
    ensures Split([x] + s, c) == [[x] + Split(s, c)[0]] + Split(s, c)[1..]
  {
    var i := IndexOf(s, c);
    assert ([x] + s)[1..] == s;
    assert IndexOf([x] + s, c) == i + 1;
    if i == |s| {
      assert ([x] + s)[..i + 1] == [x] + s;
    } else {
      assert ([x] + s)[..i + 1] == [x] + s[..i];
      assert ([x] + s)[i + 2..] == s[i + 1..];
    }
  }

  /** Joining the pieces of a split with the same separator gives back the original string. */
  lemma {:induction false} JoinSplit(s: string, c: char)
    ensures Join(Split(s, c), [c]) == s
    decreases |s|
  {
    var i := IndexOf(s, c);
    if i < |s| {
      var rest := Split(s[i + 1..], c);
      JoinSplit(s[i + 1..], c);
      assert Split(s, c) == [s[..i]] + rest;
      assert ([s[..i]] + rest)[1..] == rest;
      assert Join([s[..i]] + rest, [c]) == s[..i] + [c] + Join(rest, [c]);
      assert s == s[..i] + [c] + s[i + 1..];
    }
  }

  /** Splitting a join of separator-free pieces gives back the pieces. */
  lemma {:induction false} SplitJoin(parts: seq<string>, c: char)
    requires |parts| >= 1
    requires forall i :: 0 <= i < |parts| ==> c !in parts[i]
    ensures Split(Join(parts, [c]), c) == parts
  {
    if |parts| == 1 {
      SplitAbsent(parts[0], c);
    } else {
      var rest := Join(parts[1..], [c]);
      SplitAfterFirst(parts[0], c, rest);
      SplitJoin(parts[1..], c);
      assert parts == [parts[0]] + parts[1..];
    }
  }
}
