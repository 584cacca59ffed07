/**
 * The few pieces of Python's `str` behaviour the core relies on:
 * `isspace`/`strip`, `startswith`/`endswith`, `splitlines`, `split("\n")`,
 * `"\n".join` and `lower` (ASCII letters only).
 */
module Text {

  /** The characters for which Python's `str.isspace()` holds; `strip()` removes exactly these. */
  predicate IsSpace(c: char) {
    ('\t' <= c <= '\r') || ('\U{1C}' <= c <= ' ') || c == '\U{85}' || c == '\U{A0}' || c == '\U{1680}' ||
    ('\U{2000}' <= c <= '\U{200A}') || ('\U{2028}' <= c <= '\U{2029}') ||
    c == '\U{202F}' || c == '\U{205F}' || c == '\U{3000}'
  }

  /** The line boundaries of Python's `str.splitlines()` (`"\r\n"` counts as one boundary). */
  predicate IsLineBreak(c: char) {
    ('\n' <= c <= '\r') || ('\U{1C}' <= c <= '\U{1E}') || c == '\U{85}' || ('\U{2028}' <= c <= '\U{2029}')
  }

  predicate AllSpace(s: string) {
    forall i :: 0 <= i < |s| ==> IsSpace(s[i])
  }

  /** Neither end of `s` is whitespace. */
  predicate Trimmed(s: string) {
    s == [] || (!IsSpace(s[0]) && !IsSpace(s[|s| - 1]))
  }

  predicate NoLineBreak(s: string) {
    forall i :: 0 <= i < |s| ==> !IsLineBreak(s[i])
  }

  predicate StartsWith(s: string, prefix: string) {
    |prefix| <= |s| && s[..|prefix|] == prefix
  }

  predicate EndsWith(s: string, suffix: string) {
    |suffix| <= |s| && s[|s| - |suffix|..] == suffix
  }

  /** `s.lstrip()`: `s` without its leading whitespace. */
  function TrimStart(s: string): (r: string)
    ensures |r| <= |s|
  {
    if s != [] && IsSpace(s[0]) then TrimStart(s[1..]) else s
  }

  /** `s.rstrip()`: `s` without its trailing whitespace. */
  function TrimEnd(s: string): (r: string)
    ensures |r| <= |s|
  {
    if s != [] && IsSpace(s[|s| - 1]) then TrimEnd(s[..|s| - 1]) else s
  }

  /** `lstrip` keeps a suffix of `s`, removes only whitespace, and stops at a non-whitespace character. */
  lemma {:induction false} TrimStartSuffix(s: string)
    ensures var r := TrimStart(s);
      r == s[|s| - |r|..] && AllSpace(s[..|s| - |r|]) && (r == [] || !IsSpace(r[0]))
    decreases |s|
  {
    if s != [] && IsSpace(s[0]) {
      var r := TrimStart(s[1..]);
      TrimStartSuffix(s[1..]);
      assert s[1..][|s| - 1 - |r|..] == s[|s| - |r|..];
      assert s[..|s| - |r|] == [s[0]] + s[1..][..|s| - 1 - |r|];
    }
  }

  /** `rstrip` keeps a prefix of `s`, removes only whitespace, and stops at a non-whitespace character. */
  lemma {:induction false} TrimEndPrefix(s: string)
    ensures var r := TrimEnd(s);
      r == s[..|r|] && AllSpace(s[|r|..]) && (r == [] || !IsSpace(r[|r| - 1]))
    decreases |s|
  {
    if s != [] && IsSpace(s[|s| - 1]) {
      var r := TrimEnd(s[..|s| - 1]);
      TrimEndPrefix(s[..|s| - 1]);
      assert s[..|s| - 1][..|r|] == s[..|r|];
      assert s[|r|..] == s[..|s| - 1][|r|..] + [s[|s| - 1]];
    }
  }

  /** `s.strip()`: `s` without the whitespace at both ends. */
  function Strip(s: string): (r: string)
    ensures |r| <= |s|
    ensures Trimmed(r)
  {
    var t := TrimStart(s);
    TrimStartSuffix(s);
    TrimEndPrefix(t);
    var r := TrimEnd(t);
    assert r == [] || r[0] == t[0];
    r
  }

  /** What `strip` removes is whitespace at the two ends: the result is the infix of `s` after its leading whitespace. */
  lemma StripIsInfix(s: string)
    ensures var i := |s| - |TrimStart(s)|;
      i + |Strip(s)| <= |s| && Strip(s) == s[i..i + |Strip(s)|] &&
      AllSpace(s[..i]) && AllSpace(s[i + |Strip(s)|..])
  {
    var t := TrimStart(s);
    var r := TrimEnd(t);
    var i := |s| - |t|;
    TrimStartSuffix(s);
    TrimEndPrefix(t);
    assert r == Strip(s);
    assert s[i..i + |r|] == r by {
      SliceOfSuffix(s, i, |r|);
    }
    assert AllSpace(s[i + |r|..]) by {
      SliceOfSuffix(s, i, |r|);
    }
  }

  /** Slicing the suffix of `s` from `i` is slicing `s` shifted by `i`. */
  lemma SliceOfSuffix<T>(s: seq<T>, i: nat, n: nat)
    requires i + n <= |s|
    ensures s[i..][..n] == s[i..i + n] && s[i..][n..] == s[i + n..]
  {
  }

  /** `s.lower()` for ASCII letters. */
  function LowerChar(c: char): char {
    if 'A' <= c <= 'Z' then (c as int + 32) as char else c
  }

  function Lower(s: string): (r: string)
    ensures |r| == |s|
    ensures forall i :: 0 <= i < |s| ==> r[i] == LowerChar(s[i])
  {
    if s == [] then [] else [LowerChar(s[0])] + Lower(s[1..])
  }

  /** Index of the first line boundary of `s`, or `|s|` when there is none. */
  function BreakIndex(s: string): (k: nat)
    ensures k <= |s|
    ensures NoLineBreak(s[..k])
    ensures k < |s| ==> IsLineBreak(s[k])
  {
    if s == [] then 0
    else if IsLineBreak(s[0]) then 0
    else
      var k := 1 + BreakIndex(s[1..]);
      assert s[..k] == [s[0]] + s[1..][..k - 1];
      k
  }

  /**
   * `s.splitlines()`: the lines of `s` without their boundaries; a boundary at
   * the very end does not start another (empty) line.
   */
  function SplitLines(s: string): (lines: seq<string>)
    ensures forall i :: 0 <= i < |lines| ==> NoLineBreak(lines[i])
    decreases |s|
  {
    if s == [] then []
    else
      var k := BreakIndex(s);
      if k == |s| then [s]
      else
        var next := if s[k] == '\r' && k + 1 < |s| && s[k + 1] == '\n' then k + 2 else k + 1;
        [s[..k]] + SplitLines(s[next..])
  }

  /** Index of the first `'\n'` of `s`, or `|s|` when there is none. */
  function NewlineIndex(s: string): (k: nat)
    ensures k <= |s|
    ensures '\n' !in s[..k]
    ensures k < |s| ==> s[k] == '\n'
  {
    if s == [] then 0
    else if s[0] == '\n' then 0
    else
      var k := 1 + NewlineIndex(s[1..]);
      assert s[..k] == [s[0]] + s[1..][..k - 1];
      k
  }

  /** `s.split("\n")`: always at least one piece, none holding a `'\n'`. */
  function SplitNewlines(s: string): (parts: seq<string>)
    ensures |parts| >= 1
    ensures forall i :: 0 <= i < |parts| ==> '\n' !in parts[i]
    decreases |s|
  {
    var k := NewlineIndex(s);
    if k == |s| then [s] else [s[..k]] + SplitNewlines(s[k + 1..])
  }

  /** `"\n".join(lines)`. */
  function JoinLines(lines: seq<string>): string
  {
    if |lines| == 0 then ""
    else if |lines| == 1 then lines[0]
    else lines[0] + "\n" + JoinLines(lines[1..])
  }

  // ------------------------------------------------------------------ lemmas

  lemma JoinLinesCons(a: string, rest: seq<string>)
    ensures JoinLines([a] + rest) == if rest == [] then a else a + "\n" + JoinLines(rest)
  {
    var lines := [a] + rest;
    assert lines[0] == a && lines[1..] == rest;
  }

  lemma StripOfTrimmed(s: string)
    requires Trimmed(s)
    ensures Strip(s) == s
  {
  }

  lemma StripNoLineBreak(s: string)
    requires NoLineBreak(s)
    ensures NoLineBreak(Strip(s))
  {
    var t := TrimStart(s);
    var r := TrimEnd(t);
    var d := |s| - |t|;
    TrimStartSuffix(s);
    TrimEndPrefix(t);
    assert r == Strip(s);
    forall j | 0 <= j < |r| ensures !IsLineBreak(r[j]) {
      assert r[j] == t[j];
      assert t[j] == s[d + j];
      assert !IsLineBreak(s[d + j]);
    }
  }

  lemma {:induction false} TrimStartAppend(a: string, b: string)
    requires b != [] && !IsSpace(b[0])
    ensures TrimStart(a + b) == TrimStart(a) + b
  {
    if a == [] {
      assert a + b == b;
    } else if IsSpace(a[0]) {
      assert (a + b)[1..] == a[1..] + b;
      TrimStartAppend(a[1..], b);
    } else {
      assert (a + b)[0] == a[0];
    }
  }

  /** Stripping `x + p`, where `p` is non-empty and whitespace-free at both ends, only trims the front of `x`. */
  lemma StripBeforeWord(x: string, p: string)
    requires p != [] && Trimmed(p)
    ensures Strip(x + p) == TrimStart(x) + p
  {
    TrimStartAppend(x, p);
    var t := TrimStart(x) + p;
    assert t[|t| - 1] == p[|p| - 1];
    TrimEndOfWordEnd(t);
    assert Strip(x + p) == TrimEnd(TrimStart(x + p));
  }

  /** `rstrip` leaves text that ends in a non-whitespace character unchanged. */
  lemma TrimEndOfWordEnd(t: string)
    requires t != [] && !IsSpace(t[|t| - 1])
    ensures TrimEnd(t) == t
  {
  }

  lemma {:induction false} TrimStartAllSpace(s: string)
    requires AllSpace(s)
    ensures TrimStart(s) == []
    decreases |s|
  {
    if s != [] {
      assert AllSpace(s[1..]) by {
        forall i | 0 <= i < |s| - 1 ensures IsSpace(s[1..][i]) {
          assert s[1..][i] == s[i + 1];
        }
      }
      TrimStartAllSpace(s[1..]);
    }
  }

  lemma {:induction false} TrimEndAllSpace(s: string)
    requires AllSpace(s)
    ensures TrimEnd(s) == []
    decreases |s|
  {
    if s != [] {
      var init := s[..|s| - 1];
      assert AllSpace(init) by {
        forall i | 0 <= i < |init| ensures IsSpace(init[i]) {
          assert init[i] == s[i];
        }
      }
      TrimEndAllSpace(init);
    }
  }

  lemma {:induction false} TrimEndAppend(a: string, b: string)
    requires a != [] && !IsSpace(a[|a| - 1])
    ensures TrimEnd(a + b) == a + TrimEnd(b)
    decreases |b|
  {
    if b == [] {
      assert a + b == a;
    } else if IsSpace(b[|b| - 1]) {
      assert (a + b)[..|a + b| - 1] == a + b[..|b| - 1];
      TrimEndAppend(a, b[..|b| - 1]);
    } else {
      assert (a + b)[|a + b| - 1] == b[|b| - 1];
    }
  }

  /** Whitespace on both sides of a line break is whitespace. */
  lemma AllSpaceAroundBreak(x: string, y: string)
    requires AllSpace(x) && AllSpace(y)
    ensures AllSpace(x + "\n" + y)
  {
    var s := x + "\n" + y;
    forall i | 0 <= i < |s| ensures IsSpace(s[i]) {
      if i < |x| { assert s[i] == x[i]; }
      else if i == |x| { assert s[i] == '\n'; }
      else { assert s[i] == y[i - |x| - 1]; }
    }
  }

  /** Whitespace around a trimmed text is exactly what `strip()` removes. */
  lemma StripPadded(pre: string, m: string, post: string)
    requires AllSpace(pre) && AllSpace(post) && Trimmed(m)
    ensures Strip(pre + m + post) == m
  {
    if m == [] {
      var s := pre + m + post;
      assert AllSpace(s) by {
        forall i | 0 <= i < |s| ensures IsSpace(s[i]) {
          if i < |pre| { assert s[i] == pre[i]; } else { assert s[i] == post[i - |pre|]; }
        }
      }
      TrimStartAllSpace(s);
    } else {
      assert pre + m + post == pre + (m + post);
      assert (m + post)[0] == m[0];
      TrimStartAppend(pre, m + post);
      TrimStartAllSpace(pre);
      assert TrimStart(pre + m + post) == m + post;
      TrimEndAppend(m, post);
      TrimEndAllSpace(post);
      assert m + [] == m;
    }
  }

  /** Text made of three pieces without a line boundary has none. */
  lemma NoLineBreakConcat(a: string, b: string, c: string)
    requires NoLineBreak(a) && NoLineBreak(b) && NoLineBreak(c)
    ensures NoLineBreak(a + b + c)
  {
    var s := a + b + c;
    forall i | 0 <= i < |s| ensures !IsLineBreak(s[i]) {
      if i < |a| { assert s[i] == a[i]; }
      else if i < |a| + |b| { assert s[i] == b[i - |a|]; }
      else { assert s[i] == c[i - |a| - |b|]; }
    }
  }

  lemma StripAfterTrimStart(x: string)
    ensures Strip(TrimStart(x)) == Strip(x)
  {
  }

  lemma NewlineIndexOfJoin(a: string, b: string)
    requires '\n' !in a
    ensures NewlineIndex(a + "\n" + b) == |a|
  {
    var s := a + "\n" + b;
    assert s[|a|] == '\n';
  }

  lemma NewlineIndexNone(a: string)
    requires '\n' !in a
    ensures NewlineIndex(a) == |a|
  {
  }

  /** `s.split("\n")` rejoined by `"\n"` gives `s` back. */
  lemma {:induction false} JoinSplit(s: string)
    ensures JoinLines(SplitNewlines(s)) == s
    decreases |s|
  {
    var k := NewlineIndex(s);
    var parts := SplitNewlines(s);
    if k == |s| {
      assert parts == [s];
    } else {
      var rest := s[k + 1..];
      var tail := SplitNewlines(rest);
      JoinSplit(rest);
      assert parts == [s[..k]] + tail;
      assert |parts| >= 2 && parts[0] == s[..k] && parts[1..] == tail;
      assert JoinLines(parts) == s[..k] + "\n" + JoinLines(tail);
      assert s == s[..k] + [s[k]] + rest;
    }
  }

  /** `"\n".join(lines)` starts with the first line. */
  lemma JoinLinesPrefix(lines: seq<string>)
    requires |lines| >= 1
    ensures |lines[0]| <= |JoinLines(lines)| && JoinLines(lines)[..|lines[0]|] == lines[0]
  {
    if |lines| > 1 {
      var s := lines[0] + "\n" + JoinLines(lines[1..]);
      assert s[..|lines[0]|] == lines[0];
    }
  }

  /** `"\n".join(lines)` ends with the last line. */
  lemma {:induction false} JoinLinesSuffix(lines: seq<string>)
    requires |lines| >= 1
    ensures var j := JoinLines(lines); var z := lines[|lines| - 1];
      |z| <= |j| && j[|j| - |z|..] == z
    decreases |lines|
  {
    if |lines| > 1 {
      var z := lines[|lines| - 1];
      JoinLinesSuffix(lines[1..]);
      assert lines[1..][|lines| - 2] == z;
      var t := JoinLines(lines[1..]);
      var s := lines[0] + "\n" + t;
      assert s[|s| - |z|..] == t[|t| - |z|..];
    }
  }

  /** Text put in front of the first line comes in front of the joined text. */
  lemma JoinLinesPrepend(x: string, lines: seq<string>)
    requires |lines| >= 1
    ensures JoinLines(lines[0 := x + lines[0]]) == x + JoinLines(lines)
  {
    var l2 := lines[0 := x + lines[0]];
    if |lines| > 1 {
      assert l2[1..] == lines[1..];
      assert x + lines[0] + "\n" + JoinLines(lines[1..]) == x + (lines[0] + "\n" + JoinLines(lines[1..]));
    }
  }

  /** Text put after the last line comes after the joined text. */
  lemma {:induction false} JoinLinesAppendLast(lines: seq<string>, y: string)
    requires |lines| >= 1
    ensures JoinLines(lines[|lines| - 1 := lines[|lines| - 1] + y]) == JoinLines(lines) + y
    decreases |lines|
  {
    if |lines| > 1 {
      var n := |lines| - 1;
      var l2 := lines[n := lines[n] + y];
      var tail := lines[1..];
      assert l2[1..] == tail[n - 1 := tail[n - 1] + y];
      JoinLinesAppendLast(tail, y);
      assert l2[0] == lines[0];
      assert lines[0] + "\n" + (JoinLines(tail) + y) == lines[0] + "\n" + JoinLines(tail) + y;
    }
  }

  /** `"\n".join(lines).split("\n") == lines` for a non-empty list of lines without '\n'. */
  lemma {:induction false} SplitJoin(lines: seq<string>)
    requires |lines| >= 1
    requires forall i :: 0 <= i < |lines| ==> '\n' !in lines[i]
    ensures SplitNewlines(JoinLines(lines)) == lines
  {
    if |lines| == 1 {
      NewlineIndexNone(lines[0]);
    } else {
      var tail := JoinLines(lines[1..]);
      NewlineIndexOfJoin(lines[0], tail);
      var s := lines[0] + "\n" + tail;
      assert s[..|lines[0]|] == lines[0];
      assert s[|lines[0]| + 1..] == tail;
      SplitJoin(lines[1..]);
      assert lines == [lines[0]] + lines[1..];
    }
  }

  /** Joining lines free of line boundaries leaves `'\n'` as the only boundary. */
  lemma {:induction false} JoinLinesBreaks(lines: seq<string>)
    requires forall i :: 0 <= i < |lines| ==> NoLineBreak(lines[i])
    ensures forall j :: 0 <= j < |JoinLines(lines)| && IsLineBreak(JoinLines(lines)[j]) ==> JoinLines(lines)[j] == '\n'
  {
    if |lines| > 1 {
      JoinLinesBreaks(lines[1..]);
      var a, t := lines[0], JoinLines(lines[1..]);
      var s := a + "\n" + t;
      forall j | 0 <= j < |s| && IsLineBreak(s[j]) ensures s[j] == '\n' {
        if j > |a| {
          assert s[j] == t[j - |a| - 1];
        }
      }
    }
  }

  lemma BreakIndexIsNewline(s: string)
    requires forall i :: 0 <= i < |s| && IsLineBreak(s[i]) ==> s[i] == '\n'
    ensures BreakIndex(s) == NewlineIndex(s)
  {
  }

  /** On text whose only boundary is `'\n'` and which does not end in one, `splitlines` is `split("\n")`. */
  lemma {:induction false} SplitLinesIsSplitNewlines(s: string)
    requires s != [] && s[|s| - 1] != '\n'
    requires forall i :: 0 <= i < |s| && IsLineBreak(s[i]) ==> s[i] == '\n'
    ensures SplitLines(s) == SplitNewlines(s)
    decreases |s|
  {
    BreakIndexIsNewline(s);
    var k := BreakIndex(s);
    if k < |s| {
      var rest := s[k + 1..];
      forall i | 0 <= i < |rest| && IsLineBreak(rest[i]) ensures rest[i] == '\n' {
        assert rest[i] == s[k + 1 + i];
      }
      SplitLinesIsSplitNewlines(rest);
    }
  }

  lemma SplitLinesNonEmpty(s: string)
    requires s != []
    ensures SplitLines(s) != []
  {
  }
}
