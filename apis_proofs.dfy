/** What the adapter of controller/models/apis.py guarantees: reply cleaning and history shape. */
module ApisProofs {
  import opened Wrappers
  import opened Text
  import opened Apis

  // -------------------------------------------------------------- clean_json

  lemma StripFencesShorter(s: string)
    ensures |StripFences(s)| <= |s|
    ensures StartsWith(s, Fence) || EndsWith(s, Fence) ==> |StripFences(s)| < |s|
    ensures !StartsWith(s, Fence) && !EndsWith(s, Fence) ==> StripFences(s) == s
  {
    if StartsWith(s, JsonFence) {
      assert s[..|Fence|] == s[..|JsonFence|][..|Fence|];
    }
  }

  lemma StripEachCons(x: string, xs: seq<string>)
    ensures StripEach([x] + xs) == [Strip(x)] + StripEach(xs)
  {
    assert ([x] + xs)[1..] == xs;
  }

  /** `StripEach` strips every line in place. */
  lemma {:induction false} StripEachAt(lines: seq<string>, i: nat)
    requires i < |lines|
    ensures StripEach(lines)[i] == Strip(lines[i])
    decreases i
  {
    assert StripEach(lines) == [Strip(lines[0])] + StripEach(lines[1..]);
    if i > 0 {
      StripEachAt(lines[1..], i - 1);
      assert lines[1..][i - 1] == lines[i];
    }
  }

  /** Stripping every line never makes the joined text longer. */
  lemma {:induction false} JoinStripShorter(lines: seq<string>)
    ensures |JoinLines(StripEach(lines))| <= |JoinLines(lines)|
    decreases |lines|
  {
    if lines != [] {
      var x, xs := lines[0], lines[1..];
      assert lines == [x] + xs;
      StripEachCons(x, xs);
      JoinLinesCons(x, xs);
      JoinLinesCons(Strip(x), StripEach(xs));
      assert |Strip(x)| <= |x|;
      JoinStripShorter(xs);
    }
  }

  /** Rejoining the lines of `t` by `'\n'` never makes it longer, and shortens it when `t` ends in a boundary. */
  lemma {:induction false} JoinSplitLinesShorter(t: string)
    ensures |JoinLines(SplitLines(t))| <= |t|
    ensures t != [] && IsLineBreak(t[|t| - 1]) ==> |JoinLines(SplitLines(t))| < |t|
    decreases |t|
  {
    if t != [] {
      var k := BreakIndex(t);
      if k == |t| {
        assert SplitLines(t) == [t];
        assert t[..k] == t;
      } else {
        var next := if t[k] == '\r' && k + 1 < |t| && t[k + 1] == '\n' then k + 2 else k + 1;
        var rest := t[next..];
        assert SplitLines(t) == [t[..k]] + SplitLines(rest);
        JoinLinesCons(t[..k], SplitLines(rest));
        if rest != [] {
          SplitLinesNonEmpty(rest);
          JoinSplitLinesShorter(rest);
          assert t[|t| - 1] == rest[|rest| - 1];
        } else {
          assert SplitLines(rest) == [];
        }
      }
    }
  }

  lemma NormalizeLinesShorter(t: string)
    ensures |NormalizeLines(t)| <= |t|
    ensures t != [] && IsLineBreak(t[|t| - 1]) ==> |NormalizeLines(t)| < |t|
  {
    JoinStripShorter(SplitLines(t));
    JoinSplitLinesShorter(t);
  }

  /** Lines that hold no boundary and are trimmed, joined by `'\n'`, give normalized text. */
  lemma JoinTrimmedNormalized(lines: seq<string>)
    requires forall i :: 0 <= i < |lines| ==> NoLineBreak(lines[i]) && Trimmed(lines[i])
    ensures Normalized(JoinLines(lines))
  {
    JoinLinesBreaks(lines);
    if lines != [] {
      assert forall i :: 0 <= i < |lines| ==> '\n' !in lines[i];
      SplitJoin(lines);
    }
  }

  /** The line normalization of `clean_json` always produces normalized text. */
  lemma NormalizeLinesNormalized(t: string)
    ensures Normalized(NormalizeLines(t))
  {
    var raw := SplitLines(t);
    var lines := StripEach(raw);
    forall i | 0 <= i < |lines| ensures NoLineBreak(lines[i]) && Trimmed(lines[i]) {
      StripEachAt(raw, i);
      StripNoLineBreak(raw[i]);
    }
    JoinTrimmedNormalized(lines);
  }

  /** Every output of `clean_json` has only `'\n'` as line boundary and every line trimmed. */
  lemma CleanJsonNormalized(s: string)
    ensures Normalized(CleanJson(s))
  {
    NormalizeLinesNormalized(StripFences(s));
  }

  lemma NormalizeLinesOfNormalized(s: string)
    requires Normalized(s) && !EndsWith(s, "\n")
    ensures NormalizeLines(s) == s
  {
    if s != [] {
      assert s[|s| - 1] != '\n' by {
        assert s[|s| - 1..] == [s[|s| - 1]];
      }
      SplitLinesIsSplitNewlines(s);
      var parts := SplitNewlines(s);
      forall i | 0 <= i < |parts| ensures StripEach(parts)[i] == parts[i] {
        assert parts[i] in parts;
        StripOfTrimmed(parts[i]);
        StripEachAt(parts, i);
      }
      assert StripEach(parts) == parts;
      JoinSplit(s);
    }
  }

  lemma CleanJsonKeepsClean(s: string)
    requires !StartsWith(s, Fence) && !EndsWith(s, Fence) && Normalized(s) && !EndsWith(s, "\n")
    ensures CleanJson(s) == s
  {
    StripFencesShorter(s);
    NormalizeLinesOfNormalized(s);
  }

  lemma CleanJsonFixedOnlyIfClean(s: string)
    requires CleanJson(s) == s
    ensures !StartsWith(s, Fence) && !EndsWith(s, Fence) && Normalized(s) && !EndsWith(s, "\n")
  {
    StripFencesShorter(s);
    NormalizeLinesShorter(StripFences(s));
    CleanJsonNormalized(s);
  }

  /**
   * `clean_json` leaves its input unchanged exactly when the input has no
   * fence at either end, is already normalized and does not end in a newline.
   */
  lemma CleanJsonFixedPoint(s: string)
    ensures CleanJson(s) == s <==>
      !StartsWith(s, Fence) && !EndsWith(s, Fence) && Normalized(s) && !EndsWith(s, "\n")
  {
    if CleanJson(s) == s {
      CleanJsonFixedOnlyIfClean(s);
    }
    if !StartsWith(s, Fence) && !EndsWith(s, Fence) && Normalized(s) && !EndsWith(s, "\n") {
      CleanJsonKeepsClean(s);
    }
  }

  /** A reply wrapped in a "```json" fence cleans to its stripped, normalized body. */
  lemma CleanJsonOfJsonFenced(t: string)
    ensures CleanJson(JsonFence + t + Fence) == NormalizeLines(Strip(t))
  {
    var s := JsonFence + t + Fence;
    assert StartsWith(s, JsonFence);
    assert s[|JsonFence|..] == t + Fence;
    StripBeforeWord(t, Fence);
    var unfenced := TrimStart(t) + Fence;
    assert EndsWith(unfenced, Fence);
    assert unfenced[..|unfenced| - |Fence|] == TrimStart(t);
    StripAfterTrimStart(t);
  }

  lemma PlainFenceIsNotJsonFence(t: string)
    requires !StartsWith(t, "json")
    ensures !StartsWith(Fence + t + Fence, JsonFence)
  {
    var s := Fence + t + Fence;
    if |t| >= 4 {
      forall k | 0 <= k < 4 ensures s[..7][3..7][k] == t[..4][k] {
        assert s[3 + k] == (Fence + t)[3 + k] == t[k];
      }
      assert s[..7][3..7] == t[..4];
      assert JsonFence[3..7] == "json";
    } else if |s| >= 7 {
      var k := 3 + |t|;
      assert s[k] == Fence[0] == '`' by {
        assert s == (Fence + t) + Fence;
      }
      assert s[..7][k] == s[k];
      assert JsonFence[k] != '`';
    }
  }

  /** A reply wrapped in a plain "```" fence cleans to its stripped, normalized body, unless the body starts with "json". */
  lemma CleanJsonOfPlainFenced(t: string)
    requires !StartsWith(t, "json")
    ensures CleanJson(Fence + t + Fence) == NormalizeLines(Strip(t))
  {
    var s := Fence + t + Fence;
    PlainFenceIsNotJsonFence(t);
    assert StartsWith(s, Fence);
    assert s[|Fence|..] == t + Fence;
    StripBeforeWord(t, Fence);
    var unfenced := TrimStart(t) + Fence;
    assert EndsWith(unfenced, Fence);
    assert unfenced[..|unfenced| - |Fence|] == TrimStart(t);
    StripAfterTrimStart(t);
  }

  /**
   * `padded` holds the lines `lines`, each with some whitespace in front
   * (`pre`) and behind (`post`); no piece holds a line boundary and every
   * line is trimmed.
   */
  predicate PaddedLines(lines: seq<string>, pre: seq<string>, post: seq<string>, padded: seq<string>) {
    |lines| >= 1 && |pre| == |lines| && |post| == |lines| && |padded| == |lines| &&
    forall i :: 0 <= i < |lines| ==>
      padded[i] == pre[i] + lines[i] + post[i] &&
      Trimmed(lines[i]) && NoLineBreak(lines[i]) &&
      AllSpace(pre[i]) && NoLineBreak(pre[i]) && AllSpace(post[i]) && NoLineBreak(post[i])
  }

  /** Line normalization of indented lines gives the lines without their indentation. */
  lemma NormalizePadded(lines: seq<string>, pre: seq<string>, post: seq<string>, padded: seq<string>)
    requires PaddedLines(lines, pre, post, padded) && lines[|lines| - 1] != []
    ensures NormalizeLines(JoinLines(padded)) == JoinLines(lines)
  {
    var n := |lines| - 1;
    forall i | 0 <= i < |padded| ensures NoLineBreak(padded[i]) && '\n' !in padded[i] {
      NoLineBreakConcat(pre[i], lines[i], post[i]);
    }
    JoinLinesBreaks(padded);
    var s := JoinLines(padded);
    var z := padded[n];
    JoinLinesSuffix(padded);
    assert s[|s| - 1] == z[|z| - 1] by {
      assert s[|s| - |z|..][|z| - 1] == z[|z| - 1];
    }
    assert !IsLineBreak(z[|z| - 1]);
    SplitLinesIsSplitNewlines(s);
    SplitJoin(padded);
    forall i | 0 <= i < |padded| ensures StripEach(padded)[i] == lines[i] {
      StripEachAt(padded, i);
      StripPadded(pre[i], lines[i], post[i]);
    }
    assert StripEach(padded) == lines;
  }

  /** The lines `lines`, each between its `pre` and its `post`. */
  function PadLines(pre: seq<string>, lines: seq<string>, post: seq<string>): (r: seq<string>)
    requires |pre| == |lines| && |post| == |lines|
    ensures |r| == |lines| && forall i :: 0 <= i < |lines| ==> r[i] == pre[i] + lines[i] + post[i]
  {
    seq(|lines|, i requires 0 <= i < |lines| => pre[i] + lines[i] + post[i])
  }

  /** The padding with the whitespace before the first line and after the last line removed. */
  function InnerPre(pre: seq<string>): seq<string>
    requires |pre| >= 1
  {
    [""] + pre[1..]
  }

  function InnerPost(post: seq<string>): seq<string>
    requires |post| >= 1
  {
    post[..|post| - 1] + [""]
  }

  lemma InnerPadded(lines: seq<string>, pre: seq<string>, post: seq<string>, padded: seq<string>)
    requires PaddedLines(lines, pre, post, padded)
    ensures PaddedLines(lines, InnerPre(pre), InnerPost(post), PadLines(InnerPre(pre), lines, InnerPost(post)))
  {
    var pre', post' := InnerPre(pre), InnerPost(post);
    forall i | 0 <= i < |lines|
      ensures AllSpace(pre'[i]) && NoLineBreak(pre'[i]) && AllSpace(post'[i]) && NoLineBreak(post'[i])
    {
      if i > 0 { assert pre'[i] == pre[i]; }
      if i < |lines| - 1 { assert post'[i] == post[i]; }
    }
  }

  /** Putting the first line's indentation and the last line's trailing whitespace back gives the indented lines. */
  lemma RestoreEnds(lines: seq<string>, pre: seq<string>, post: seq<string>)
    requires |lines| >= 2 && |pre| == |lines| && |post| == |lines|
    ensures var inner := PadLines(InnerPre(pre), lines, InnerPost(post));
            var q := inner[0 := pre[0] + inner[0]];
            q[|lines| - 1 := q[|lines| - 1] + post[|lines| - 1]] == PadLines(pre, lines, post)
  {
    var n := |lines| - 1;
    var padded := PadLines(pre, lines, post);
    var pre', post' := InnerPre(pre), InnerPost(post);
    var inner := PadLines(pre', lines, post');
    var q := inner[0 := pre[0] + inner[0]];
    var r := q[n := q[n] + post[n]];
    assert r[0] == padded[0] by {
      assert post'[0] == post[0];
      assert inner[0] == lines[0] + post[0];
    }
    assert r[n] == padded[n] by {
      assert pre'[n] == pre[n];
    }
    forall i | 0 < i < n ensures r[i] == padded[i] {
      assert pre'[i] == pre[i] && post'[i] == post[i];
    }
    assert r == padded;
  }

  /** The joined indented lines are the inner join between the first line's indentation and the last line's trailing whitespace. */
  lemma JoinPaddedEnds(lines: seq<string>, pre: seq<string>, post: seq<string>)
    requires |lines| >= 1 && |pre| == |lines| && |post| == |lines|
    ensures JoinLines(PadLines(pre, lines, post)) ==
            pre[0] + JoinLines(PadLines(InnerPre(pre), lines, InnerPost(post))) + post[|lines| - 1]
  {
    var n := |lines| - 1;
    var inner := PadLines(InnerPre(pre), lines, InnerPost(post));
    if n == 0 {
      assert inner[0] == lines[0];
    } else {
      var q := inner[0 := pre[0] + inner[0]];
      JoinLinesPrepend(pre[0], inner);
      JoinLinesAppendLast(q, post[n]);
      RestoreEnds(lines, pre, post);
    }
  }

  /** Joined lines that start with a non-empty trimmed line and end with one are trimmed. */
  lemma JoinInnerTrimmed(lines: seq<string>, pre: seq<string>, post: seq<string>)
    requires |lines| >= 1 && |pre| == |lines| && |post| == |lines|
    requires pre[0] == [] && post[|lines| - 1] == []
    requires lines[0] != [] && Trimmed(lines[0]) && lines[|lines| - 1] != [] && Trimmed(lines[|lines| - 1])
    ensures JoinLines(PadLines(pre, lines, post)) != [] && Trimmed(JoinLines(PadLines(pre, lines, post)))
  {
    var n := |lines| - 1;
    var inner := PadLines(pre, lines, post);
    var m := JoinLines(inner);
    JoinLinesPrefix(inner);
    JoinLinesSuffix(inner);
    assert inner[0] == lines[0] + post[0];
    assert m[0] == lines[0][0] by {
      assert m[..|inner[0]|][0] == inner[0][0];
    }
    var z := inner[n];
    assert z == pre[n] + lines[n];
    assert m[|m| - 1] == lines[n][|lines[n]| - 1] by {
      assert m[|m| - |z|..][|z| - 1] == z[|z| - 1];
    }
  }

  /** The join of padded lines is the trimmed inner join between the first line's indentation and the last line's trailing whitespace. */
  lemma PaddedJoinParts(lines: seq<string>, pre: seq<string>, post: seq<string>, padded: seq<string>)
    requires PaddedLines(lines, pre, post, padded) && lines[0] != [] && lines[|lines| - 1] != []
    ensures var m := JoinLines(PadLines(InnerPre(pre), lines, InnerPost(post)));
      Trimmed(m) && JoinLines(padded) == pre[0] + m + post[|lines| - 1] &&
      AllSpace(pre[0]) && AllSpace(post[|lines| - 1])
  {
    InnerPadded(lines, pre, post, padded);
    assert InnerPre(pre)[0] == [] && InnerPost(post)[|lines| - 1] == [];
    JoinInnerTrimmed(lines, InnerPre(pre), InnerPost(post));
    assert padded == PadLines(pre, lines, post);
    JoinPaddedEnds(lines, pre, post);
  }

  /** Stripping indented lines joined by `'\n'` removes just the whitespace before the first and after the last line. */
  lemma StripPaddedJoin(lines: seq<string>, pre: seq<string>, post: seq<string>, padded: seq<string>)
    requires PaddedLines(lines, pre, post, padded) && lines[0] != [] && lines[|lines| - 1] != []
    ensures Strip(JoinLines(padded)) == JoinLines(PadLines(InnerPre(pre), lines, InnerPost(post)))
  {
    PaddedJoinParts(lines, pre, post, padded);
    StripPadded(pre[0], JoinLines(PadLines(InnerPre(pre), lines, InnerPost(post))), post[|lines| - 1]);
  }

  /** The same when the lines sit between whitespace-only lines of their own, as after a fence on its own line. */
  lemma StripOwnLines(lines: seq<string>, pre: seq<string>, post: seq<string>, padded: seq<string>, a: string, b: string)
    requires PaddedLines(lines, pre, post, padded) && lines[0] != [] && lines[|lines| - 1] != []
    requires AllSpace(a) && AllSpace(b)
    ensures Strip(a + "\n" + JoinLines(padded) + "\n" + b) == JoinLines(PadLines(InnerPre(pre), lines, InnerPost(post)))
  {
    var m := JoinLines(PadLines(InnerPre(pre), lines, InnerPost(post)));
    var x, y := pre[0], post[|lines| - 1];
    PaddedJoinParts(lines, pre, post, padded);
    AllSpaceAroundBreak(a, x);
    AllSpaceAroundBreak(y, b);
    Regroup(a, x, m, y, b);
    StripPadded(a + "\n" + x, m, y + "\n" + b);
  }

  lemma Regroup(a: string, x: string, m: string, y: string, b: string)
    ensures a + "\n" + (x + m + y) + "\n" + b == (a + "\n" + x) + m + (y + "\n" + b)
  {
  }

  /** Text that starts with whitespace does not start with "json". */
  lemma SpaceFirstIsNotJson(t: string)
    requires t != [] && IsSpace(t[0])
    ensures !StartsWith(t, "json")
  {
  }

  /**
   * A reply in a "```json" fence whose lines are indented, as a model
   * commonly formats it, cleans to the lines without indentation.
   */
  lemma CleanJsonOfIndentedJson(lines: seq<string>, pre: seq<string>, post: seq<string>, padded: seq<string>)
    requires PaddedLines(lines, pre, post, padded) && lines[0] != [] && lines[|lines| - 1] != []
    ensures CleanJson(JsonFence + JoinLines(padded) + Fence) == JoinLines(lines)
  {
    CleanJsonOfJsonFenced(JoinLines(padded));
    StripPaddedJoin(lines, pre, post, padded);
    InnerPadded(lines, pre, post, padded);
    NormalizePadded(lines, InnerPre(pre), InnerPost(post), PadLines(InnerPre(pre), lines, InnerPost(post)));
  }

  /** The same with a plain "```" fence, when the body does not start with "json". */
  lemma CleanJsonOfIndentedPlain(lines: seq<string>, pre: seq<string>, post: seq<string>, padded: seq<string>)
    requires PaddedLines(lines, pre, post, padded) && lines[0] != [] && lines[|lines| - 1] != []
    requires !StartsWith(JoinLines(padded), "json")
    ensures CleanJson(Fence + JoinLines(padded) + Fence) == JoinLines(lines)
  {
    CleanJsonOfPlainFenced(JoinLines(padded));
    StripPaddedJoin(lines, pre, post, padded);
    InnerPadded(lines, pre, post, padded);
    NormalizePadded(lines, InnerPre(pre), InnerPost(post), PadLines(InnerPre(pre), lines, InnerPost(post)));
  }

  /**
   * The usual shape of a fenced reply: "```json" on a line of its own, the
   * indented lines, then "```" on a line of its own (with any whitespace
   * around the line breaks). It cleans to the lines without indentation.
   */
  lemma CleanJsonOfOwnLineJson(lines: seq<string>, pre: seq<string>, post: seq<string>, padded: seq<string>,
                               a: string, b: string)
    requires PaddedLines(lines, pre, post, padded) && lines[0] != [] && lines[|lines| - 1] != []
    requires AllSpace(a) && AllSpace(b)
    ensures var t := a + "\n" + JoinLines(padded) + "\n" + b;
      CleanJson(JsonFence + t + Fence) == JoinLines(lines)
  {
    var t := a + "\n" + JoinLines(padded) + "\n" + b;
    CleanJsonOfJsonFenced(t);
    StripOwnLines(lines, pre, post, padded, a, b);
    InnerPadded(lines, pre, post, padded);
    NormalizePadded(lines, InnerPre(pre), InnerPost(post), PadLines(InnerPre(pre), lines, InnerPost(post)));
  }

  /** The same with a plain "```" fence on its own line; the body then starts with whitespace, never with "json". */
  lemma CleanJsonOfOwnLinePlain(lines: seq<string>, pre: seq<string>, post: seq<string>, padded: seq<string>,
                                a: string, b: string)
    requires PaddedLines(lines, pre, post, padded) && lines[0] != [] && lines[|lines| - 1] != []
    requires AllSpace(a) && AllSpace(b)
    ensures var t := a + "\n" + JoinLines(padded) + "\n" + b;
      CleanJson(Fence + t + Fence) == JoinLines(lines)
  {
    var t := a + "\n" + JoinLines(padded) + "\n" + b;
    assert IsSpace(t[0]) by {
      if a == [] { assert t[0] == '\n'; } else { assert t[0] == a[0]; }
    }
    SpaceFirstIsNotJson(t);
    CleanJsonOfPlainFenced(t);
    StripOwnLines(lines, pre, post, padded, a, b);
    InnerPadded(lines, pre, post, padded);
    NormalizePadded(lines, InnerPre(pre), InnerPost(post), PadLines(InnerPre(pre), lines, InnerPost(post)));
  }

  // -------------------------------------------------------- call_ollama_llava

  /**
   * A call only appends: the old history (and so its system message) is a
   * prefix of the new one, the unconsumed attempts are a suffix of the script,
   * and the script is only exhausted when nothing remains.
   */
  lemma {:induction false} AskKeepsHistory(h: seq<Message>, a: seq<Attempt>, ad: Adapter)
    ensures var e := AskModel(h, a, ad);
      |h| <= |e.history| && e.history[..|h|] == h &&
      |e.rest| <= |a| && e.rest == a[|a| - |e.rest|..] &&
      (a != [] ==> |e.rest| < |a|) &&
      (e.reply.OutOfAttempts? ==> e.rest == [])
    decreases |a|
  {
    if a != [] {
      var vision := VisionMessage(h, ad.prompts);
      match a[0]
      case SetupFails =>
        AskKeepsHistory(h, a[1..], ad);
      case ResponseError =>
      case ChatFails =>
        AskKeepsHistory(h + [vision], a[1..], ad);
        assert (h + [vision])[..|h|] == h;
      case Replied(raw) =>
        var stripped := h + [vision.(images := None)];
        assert stripped[..|h|] == h;
        if ad.parse(ad.clean(raw)).None? {
          AskKeepsHistory(stripped, a[1..], ad);
        }
    }
  }

  /** On a reply that parses at the first attempt the history grows by exactly the text-only user message and the assistant message. */
  lemma AskFirstTry(h: seq<Message>, a: seq<Attempt>, ad: Adapter)
    requires a != [] && a[0].Replied? && ad.parse(ad.clean(a[0].raw)).Some?
    ensures AskModel(h, a, ad) ==
      Exchange(h + [Message(User, UserPrompt(h, ad.prompts), None), Message(Assistant, ad.clean(a[0].raw), None)],
               Operations(ad.parse(ad.clean(a[0].raw)).value), a[1..])
  {
  }

  /**
   * The exchange `e` ended with the operations parsed from the reply of
   * attempt `k`: its last message is the assistant message holding that
   * reply's cleaned content, and the attempts after `k` are the ones left.
   */
  ghost predicate RepliedAt(a: seq<Attempt>, k: int, e: Exchange, ad: Adapter) {
    0 <= k < |a| && a[k].Replied? && e.reply.Operations? && |e.history| > 0 &&
    e.history[|e.history| - 1] == Message(Assistant, ad.clean(a[k].raw), None) &&
    ad.parse(ad.clean(a[k].raw)) == Some(e.reply.items) &&
    e.rest == a[k + 1..]
  }

  lemma RepliedAtShift(a: seq<Attempt>, k: int, e: Exchange, ad: Adapter)
    requires a != [] && RepliedAt(a[1..], k, e, ad)
    ensures RepliedAt(a, k + 1, e, ad)
  {
    assert a[k + 1] == a[1..][k];
    assert a[k + 2..] == a[1..][k + 1..];
  }

  /**
   * Whenever operations come back, they are the parse of the cleaned reply of
   * some attempt, whose assistant message ends the history, preceded by a user
   * message without image; the attempts after that one are the ones left.
   */
  lemma {:induction false} AskSuccessShape(h: seq<Message>, a: seq<Attempt>, ad: Adapter)
    ensures var e := AskModel(h, a, ad);
      e.reply.Operations? ==>
        |e.history| >= |h| + 2 &&
        e.history[|e.history| - 2].role == User && e.history[|e.history| - 2].images.None? &&
        exists k :: RepliedAt(a, k, e, ad)
    decreases |a|
  {
    if a != [] {
      var vision := VisionMessage(h, ad.prompts);
      var e := AskModel(h, a, ad);
      match a[0]
      case SetupFails =>
        AskSuccessShape(h, a[1..], ad);
        if e.reply.Operations? {
          var k :| RepliedAt(a[1..], k, e, ad);
          RepliedAtShift(a, k, e, ad);
        }
      case ResponseError =>
      case ChatFails =>
        AskSuccessShape(h + [vision], a[1..], ad);
        if e.reply.Operations? {
          var k :| RepliedAt(a[1..], k, e, ad);
          RepliedAtShift(a, k, e, ad);
        }
      case Replied(raw) =>
        var stripped := h + [vision.(images := None)];
        if ad.parse(ad.clean(raw)).None? {
          AskSuccessShape(stripped, a[1..], ad);
          if e.reply.Operations? {
            var k :| RepliedAt(a[1..], k, e, ad);
            RepliedAtShift(a, k, e, ad);
          }
        } else {
          assert e.history == stripped + [Message(Assistant, ad.clean(raw), None)];
          assert RepliedAt(a, 0, e, ad);
        }
    }
  }

  /**
   * Every message a call adds is a user message, except that the last one is
   * the assistant's exactly when operations come back.
   */
  lemma {:induction false} AskAddsUserMessages(h: seq<Message>, a: seq<Attempt>, ad: Adapter)
    ensures var e := AskModel(h, a, ad);
      |h| <= |e.history| &&
      (forall i :: |h| <= i < |e.history| && !(e.reply.Operations? && i == |e.history| - 1) ==> e.history[i].role == User) &&
      (e.reply.Operations? <==> |e.history| > |h| && e.history[|e.history| - 1].role == Assistant)
    decreases |a|
  {
    if a != [] {
      var vision := VisionMessage(h, ad.prompts);
      match a[0]
      case SetupFails =>
        AskAddsUserMessages(h, a[1..], ad);
      case ResponseError =>
      case ChatFails =>
        AskAddsUserMessages(h + [vision], a[1..], ad);
        AskKeepsHistory(h + [vision], a[1..], ad);
        var e := AskModel(h, a, ad);
        assert e.history[..|h| + 1][|h|] == vision;
      case Replied(raw) =>
        var stripped := h + [vision.(images := None)];
        var e := AskModel(h, a, ad);
        if ad.parse(ad.clean(raw)).None? {
          AskAddsUserMessages(stripped, a[1..], ad);
          AskKeepsHistory(stripped, a[1..], ad);
          assert e.history[..|h| + 1][|h|] == stripped[|h|];
        } else {
          assert e.history == stripped + [Message(Assistant, ad.clean(raw), None)];
        }
    }
  }

  /**
   * The first message a call adds is the user message, and its prompt is the
   * first-message prompt exactly when the history holds one message on entry;
   * attempts that fail before the append leave the history as it was.
   */
  lemma {:induction false} AskPromptChoice(h: seq<Message>, a: seq<Attempt>, ad: Adapter)
    requires |AskModel(h, a, ad).history| > |h|
    ensures var e := AskModel(h, a, ad);
      e.history[|h|].role == User &&
      e.history[|h|].content == (if |h| == 1 then ad.prompts.first else ad.prompts.followUp)
    decreases |a|
  {
    assert a != [];
    var vision := VisionMessage(h, ad.prompts);
    match a[0]
    case SetupFails =>
      AskPromptChoice(h, a[1..], ad);
    case ResponseError =>
    case ChatFails =>
      AskKeepsHistory(h + [vision], a[1..], ad);
      var e := AskModel(h, a, ad);
      assert e.history[..|h| + 1][|h|] == vision;
    case Replied(raw) =>
      var stripped := h + [vision.(images := None)];
      if ad.parse(ad.clean(raw)).None? {
        AskKeepsHistory(stripped, a[1..], ad);
        var e := AskModel(h, a, ad);
        assert e.history[..|h| + 1][|h|] == stripped[|h|];
      }
  }

  /** A reply that fails to parse: the user message is left without its image, no assistant message is added, and the call is retried on the rest. */
  lemma AskParseFailureRetries(h: seq<Message>, a: seq<Attempt>, ad: Adapter)
    requires a != [] && a[0].Replied? && ad.parse(ad.clean(a[0].raw)).None?
    ensures AskModel(h, a, ad) == AskModel(h + [Message(User, UserPrompt(h, ad.prompts), None)], a[1..], ad)
  {
  }

  /** `ResponseError` is not retried: the call ends with `NoReply`, the user message still carrying its image. */
  lemma AskResponseErrorStops(h: seq<Message>, a: seq<Attempt>, ad: Adapter)
    requires a != [] && a[0].ResponseError?
    ensures AskModel(h, a, ad) ==
      Exchange(h + [Message(User, UserPrompt(h, ad.prompts), Some([ScreenshotPath]))], NoReply, a[1..])
  {
  }

  /**
   * Any other exception of the chat call is retried, and the user message of
   * the failed attempt keeps its image in the history for good: it stays in
   * every later history, however the retry ends.
   */
  lemma AskChatFailureKeepsImage(h: seq<Message>, a: seq<Attempt>, ad: Adapter)
    requires a != [] && a[0].ChatFails?
    ensures AskModel(h, a, ad) == AskModel(h + [VisionMessage(h, ad.prompts)], a[1..], ad)
    ensures var e := AskModel(h, a, ad);
      |e.history| > |h| && e.history[|h|].role == User && e.history[|h|].images == Some([ScreenshotPath])
  {
    var vision := VisionMessage(h, ad.prompts);
    AskKeepsHistory(h + [vision], a[1..], ad);
    var e := AskModel(h, a, ad);
    assert e.history[..|h| + 1][|h|] == vision;
  }

  /**
   * If no attempt of the script fails inside the chat call, no message the
   * call adds keeps an image reference.
   */
  lemma {:induction false} AskNoStaleImages(h: seq<Message>, a: seq<Attempt>, ad: Adapter)
    requires forall k :: 0 <= k < |a| ==> !a[k].ChatFails? && !a[k].ResponseError?
    ensures var e := AskModel(h, a, ad);
      |h| <= |e.history| && forall i :: |h| <= i < |e.history| ==> e.history[i].images.None?
    decreases |a|
  {
    if a != [] {
      assert forall k :: 0 <= k < |a[1..]| ==> a[1..][k] == a[k + 1];
      var vision := VisionMessage(h, ad.prompts);
      match a[0]
      case SetupFails =>
        AskNoStaleImages(h, a[1..], ad);
      case Replied(raw) =>
        var stripped := h + [vision.(images := None)];
        if ad.parse(ad.clean(raw)).None? {
          AskNoStaleImages(stripped, a[1..], ad);
          AskKeepsHistory(stripped, a[1..], ad);
          var e := AskModel(h, a, ad);
          forall i | |h| <= i < |e.history| ensures e.history[i].images.None? {
            if i == |h| {
              assert e.history[..|h| + 1][|h|] == stripped[|h|];
            }
          }
        }
    }
  }
}
