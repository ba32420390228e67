/**
 * The slug field of the dashboard's new-project form (Dashboard.js:98) rewrites what is
 * typed with `value.toLowerCase().replace(/\s+/g, '-')`: letters are lowered, then every
 * maximal run of whitespace becomes a single `-`. Lowering is modelled for ASCII letters.
 */
module Slug {

  /** The characters JavaScript's `\s` matches (ECMAScript WhiteSpace and LineTerminator). */
  predicate IsWhitespace(c: char)
    ensures c == ' ' || c == '\t' || c == '\n' || c == '\r' ==> IsWhitespace(c)
    ensures IsWhitespace(c) ==> c != '-' && !IsAsciiUpper(c)
  {
    var n := c as int;
    n == 0x09 || n == 0x0A || n == 0x0B || n == 0x0C || n == 0x0D || n == 0x20
    || n == 0xA0 || n == 0x1680 || (0x2000 <= n <= 0x200A) || n == 0x2028 || n == 0x2029
    || n == 0x202F || n == 0x205F || n == 0x3000 || n == 0xFEFF
  }

  predicate IsAsciiUpper(c: char)
  {
    'A' <= c <= 'Z'
  }

  /** `toLowerCase` on one character, ASCII letters only. */
  function LowerChar(c: char): (d: char)
    ensures !IsAsciiUpper(d)
    ensures IsWhitespace(d) == IsWhitespace(c)
    ensures !IsAsciiUpper(c) ==> d == c
    ensures IsAsciiUpper(c) ==> d as int == c as int + 32
  {
    if IsAsciiUpper(c) then (c as int + 32) as char else c
  }

  /** `toLowerCase` on a string. */
  function ToLower(s: string): (r: string)
    ensures |r| == |s|
    ensures forall i :: 0 <= i < |r| ==> !IsAsciiUpper(r[i])
    ensures forall i :: 0 <= i < |s| ==> IsWhitespace(r[i]) == IsWhitespace(s[i])
    ensures forall i :: 0 <= i < |s| && IsAsciiUpper(s[i]) ==> r[i] as int == s[i] as int + 32
    ensures forall i :: 0 <= i < |s| && !IsAsciiUpper(s[i]) ==> r[i] == s[i]
  {
    seq(|s|, i requires 0 <= i < |s| => LowerChar(s[i]))
  }

  /** What is left after the leading whitespace of `s`. */
  function SkipWhitespace(s: string): (r: string)
    ensures |r| <= |s| && r == s[|s| - |r|..]
    ensures r == [] || !IsWhitespace(r[0])
    ensures forall i :: 0 <= i < |s| - |r| ==> IsWhitespace(s[i])
    decreases |s|
  {
    if s != [] && IsWhitespace(s[0]) then SkipWhitespace(s[1..]) else s
  }

  /** `replace(/\s+/g, '-')`: each maximal whitespace run becomes one `-`, everything else is kept. */
  function ReplaceWhitespaceRuns(s: string): (r: string)
    ensures |r| <= |s|
    ensures forall i :: 0 <= i < |r| ==> !IsWhitespace(r[i])
    ensures forall i :: 0 <= i < |r| ==> r[i] == '-' || r[i] in s
    decreases |s|
  {
    if s == [] then []
    else if IsWhitespace(s[0]) then "-" + ReplaceWhitespaceRuns(SkipWhitespace(s))
    else [s[0]] + ReplaceWhitespaceRuns(s[1..])
  }

  /** The slug normaliser of the dashboard form. */
  function NormalizeSlug(s: string): (r: string)
    ensures |r| <= |s|
    ensures forall i :: 0 <= i < |r| ==> !IsWhitespace(r[i])
    ensures forall i :: 0 <= i < |r| ==> !IsAsciiUpper(r[i])
  {
    var lowered := ToLower(s);
    var r := ReplaceWhitespaceRuns(lowered);
    assert forall i :: 0 <= i < |r| ==> !IsAsciiUpper(r[i]) by {
      forall i | 0 <= i < |r| ensures !IsAsciiUpper(r[i]) {
        if r[i] != '-' {
          var j :| 0 <= j < |lowered| && lowered[j] == r[i];
        }
      }
    }
    r
  }

  lemma ToLowerConcat(a: string, b: string)
    ensures ToLower(a + b) == ToLower(a) + ToLower(b)
  {
  }

  lemma {:induction false} SkipAllWhitespace(w: string, b: string)
    requires forall i :: 0 <= i < |w| ==> IsWhitespace(w[i])
    requires b == [] || !IsWhitespace(b[0])
    ensures SkipWhitespace(w + b) == b
    decreases |w|
  {
    if w != [] {
      assert (w + b)[1..] == w[1..] + b;
      SkipAllWhitespace(w[1..], b);
    }
  }

  lemma {:induction false} SkipSomeWhitespace(a: string, b: string)
    requires exists i :: 0 <= i < |a| && !IsWhitespace(a[i])
    ensures SkipWhitespace(a + b) == SkipWhitespace(a) + b
    decreases |a|
  {
    if IsWhitespace(a[0]) {
      assert (a + b)[1..] == a[1..] + b;
      var i :| 0 <= i < |a| && !IsWhitespace(a[i]);
      assert a[1..][i - 1] == a[i];
      SkipSomeWhitespace(a[1..], b);
    }
  }

  /** A string already free of whitespace runs is left alone. */
  lemma {:induction false} ReplaceNoWhitespace(s: string)
    requires forall i :: 0 <= i < |s| ==> !IsWhitespace(s[i])
    ensures ReplaceWhitespaceRuns(s) == s
    decreases |s|
  {
    if s != [] {
      ReplaceNoWhitespace(s[1..]);
    }
  }

  /**
   * The replacement works run by run: cutting the text where no run is split (the left part
   * ends, or the right part starts, with a non-whitespace character) commutes with it.
   */
  lemma {:induction false} ReplaceConcat(a: string, b: string)
    requires a == [] || b == [] || !IsWhitespace(a[|a| - 1]) || !IsWhitespace(b[0])
    ensures ReplaceWhitespaceRuns(a + b) == ReplaceWhitespaceRuns(a) + ReplaceWhitespaceRuns(b)
    decreases |a|
  {
    if a == [] {
      assert a + b == b;
    } else if b == [] {
      assert a + b == a;
    } else if IsWhitespace(a[0]) {
      assert (a + b)[0] == a[0];
      var a' := SkipWhitespace(a);
      assert ReplaceWhitespaceRuns(a) == "-" + ReplaceWhitespaceRuns(a');
      assert ReplaceWhitespaceRuns(a + b) == "-" + ReplaceWhitespaceRuns(SkipWhitespace(a + b));
      if a' == [] {
        assert !IsWhitespace(b[0]);
        SkipAllWhitespace(a, b);
      } else {
        SkipSomeWhitespace(a, b);
        assert a'[|a'| - 1] == a[|a| - 1];
        ReplaceConcat(a', b);
        assert a' + b == SkipWhitespace(a + b);
      }
    } else {
      assert (a + b)[0] == a[0] && (a + b)[1..] == a[1..] + b;
      assert ReplaceWhitespaceRuns(a + b) == [a[0]] + ReplaceWhitespaceRuns(a[1..] + b);
      ReplaceConcat(a[1..], b);
    }
  }

  /** Normalisation works run by run (see ReplaceConcat). */
  lemma NormalizeConcat(a: string, b: string)
    requires a == [] || b == [] || !IsWhitespace(a[|a| - 1]) || !IsWhitespace(b[0])
    ensures NormalizeSlug(a + b) == NormalizeSlug(a) + NormalizeSlug(b)
  {
    ToLowerConcat(a, b);
    var la, lb := ToLower(a), ToLower(b);
    assert a != [] ==> la[|la| - 1] == LowerChar(a[|a| - 1]);
    assert b != [] ==> lb[0] == LowerChar(b[0]);
    ReplaceConcat(la, lb);
  }

  /** A non-empty run of whitespace, leading, trailing or inside the text, becomes exactly one `-`. */
  lemma NormalizeRun(w: string)
    requires |w| > 0
    requires forall i :: 0 <= i < |w| ==> IsWhitespace(w[i])
    ensures NormalizeSlug(w) == "-"
  {
    var lw := ToLower(w);
    assert lw == w;
    assert w + [] == w;
    SkipAllWhitespace(w, []);
  }

  /** Any other character is kept, lowered, in its place. */
  lemma NormalizeChar(c: char)
    requires !IsWhitespace(c)
    ensures NormalizeSlug([c]) == [LowerChar(c)]
  {
    assert ToLower([c]) == [LowerChar(c)];
  }

  /** The normaliser leaves a text with no whitespace and no upper-case letter unchanged. */
  lemma NormalizeFixed(s: string)
    requires forall i :: 0 <= i < |s| ==> !IsWhitespace(s[i]) && !IsAsciiUpper(s[i])
    ensures NormalizeSlug(s) == s
  {
    assert ToLower(s) == s;
    ReplaceNoWhitespace(s);
  }

  /** Normalising twice is normalising once. */
  lemma NormalizeIdempotent(s: string)
    ensures NormalizeSlug(NormalizeSlug(s)) == NormalizeSlug(s)
  {
    NormalizeFixed(NormalizeSlug(s));
  }
}
