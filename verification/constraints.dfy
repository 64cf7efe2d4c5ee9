/**
 * Turning the constraints text area into the request's constraint list
 * (OdysseyMaker_app.py:299): split into lines, strip each line, drop the
 * lines that are blank after stripping, keep the order. Line boundaries are
 * exactly those of Python's `str.splitlines()`.
 */
module Constraints {
  import opened Text

  /** The characters `str.splitlines()` breaks at ("\r\n" counts as one boundary). */
  predicate IsLineBoundary(c: char)
  {
    || c == '\n' || c == '\r' || c == '\U{B}' || c == '\U{C}'
    || ('\U{1C}' <= c <= '\U{1E}')
    || c == '\U{85}' || c == '\U{2028}' || c == '\U{2029}'
  }

  /** Every line boundary is whitespace to `str.strip()`, so stripping a line
      would remove any boundary left at either end. */
  lemma LineBoundaryIsSpace(c: char)
    ensures IsLineBoundary(c) ==> IsSpace(c)
  {
  }

  predicate NoBoundary(s: string)
  {
    forall k :: 0 <= k < |s| ==> !IsLineBoundary(s[k])
  }

  /** The length of the first line of `s`: the position of its first boundary, or `|s|`. */
  function LineEnd(s: string): (k: nat)
    ensures k <= |s| && NoBoundary(s[..k])
    ensures k < |s| ==> IsLineBoundary(s[k])
  {
    if s == [] || IsLineBoundary(s[0]) then 0
    else
      var k := 1 + LineEnd(s[1..]);
      assert forall j :: 1 <= j < k ==> s[..k][j] == s[1..][..k - 1][j - 1];
      k
  }

  /** `s.splitlines()`: the lines of `s` without their boundaries; a final
      boundary does not start another line, and "" has no lines. */
  function SplitLines(s: string): (lines: seq<string>)
    ensures forall i :: 0 <= i < |lines| ==> NoBoundary(lines[i])
    decreases |s|
  {
    if s == [] then []
    else
      var k := LineEnd(s);
      if k == |s| then
        assert s[..k] == s;
        [s]
      else
        [s[..k]] + SplitLines(s[NextLineStart(s, k)..])
  }

  /** Where the line after the boundary at `k` starts: "\r\n" is one boundary. */
  function NextLineStart(s: string, k: nat): (next: nat)
    requires k < |s|
    ensures k < next <= |s|
  {
    if s[k] == '\r' && k + 1 < |s| && s[k + 1] == '\n' then k + 2 else k + 1
  }

  /** The boundary that ends each line of `SplitLines(s)`; "" after a last
      line that runs to the end of the text. */
  function LineBreaks(s: string): (breaks: seq<string>)
    ensures |breaks| == |SplitLines(s)|
    decreases |s|
  {
    if s == [] then []
    else
      var k := LineEnd(s);
      if k == |s| then [""]
      else
        var next := NextLineStart(s, k);
        [s[k..next]] + LineBreaks(s[next..])
  }

  /** A line boundary as it appears in the text: "\r\n" or one boundary character. */
  predicate IsBreak(b: string)
  {
    b == "\r\n" || (|b| == 1 && IsLineBoundary(b[0]))
  }

  /** What splitting `s` into `lines` means, independently of how it is
      computed: `s` is the lines in order, each followed by its break in
      `breaks`; no line holds a boundary; a lone "\r" is never followed by
      "\n" (the two form one break); and only the last line may have no
      break, in which case it is not empty. */
  predicate LinesOf(s: string, lines: seq<string>, breaks: seq<string>)
    decreases |lines|
  {
    && |lines| == |breaks|
    && if lines == [] then s == ""
       else
         var n := |lines[0]| + |breaks[0]|;
         && NoBoundary(lines[0])
         && (IsBreak(breaks[0]) || (|lines| == 1 && breaks[0] == "" && lines[0] != ""))
         && n <= |s| && s[..n] == lines[0] + breaks[0]
         && (breaks[0] == "\r" ==> !(n < |s| && s[n] == '\n'))
         && LinesOf(s[n..], lines[1..], breaks[1..])
  }

  /** `SplitLines` splits the text: its lines and their breaks rebuild it. */
  lemma {:induction false} SplitLinesSplits(s: string)
    ensures LinesOf(s, SplitLines(s), LineBreaks(s))
    decreases |s|
  {
    if s != [] {
      var k := LineEnd(s);
      if k == |s| {
        assert s[..k] == s;
        LinesOfLast(s);
      } else {
        var next := NextLineStart(s, k);
        var line, b := s[..k], s[k..next];
        var lines, breaks := SplitLines(s[next..]), LineBreaks(s[next..]);
        SplitLinesSplits(s[next..]);
        BreakAtBoundary(s, k);
        LinesOfCons(s, line, b, lines, breaks);
        SplitLinesStep(s);
      }
    }
  }

  /** One step of `SplitLines` and `LineBreaks` on a text with a boundary. */
  lemma SplitLinesStep(s: string)
    requires s != [] && LineEnd(s) < |s|
    ensures var k := LineEnd(s); var next := NextLineStart(s, k);
      && SplitLines(s) == [s[..k]] + SplitLines(s[next..])
      && LineBreaks(s) == [s[k..next]] + LineBreaks(s[next..])
  {
  }

  /** The same step, for a boundary at `k` whose break ends at `n`, read as
      the first line and break and the split of the rest. */
  lemma SplitLinesAt(s: string, k: nat, n: nat)
    requires k < |s| && LineEnd(s) == k && NextLineStart(s, k) == n
    ensures SplitLines(s) != [] && SplitLines(s)[0] == s[..k] && SplitLines(s)[1..] == SplitLines(s[n..])
    ensures LineBreaks(s) != [] && LineBreaks(s)[0] == s[k..n] && LineBreaks(s)[1..] == LineBreaks(s[n..])
  {
    SplitLinesStep(s);
    ConsParts(SplitLines(s));
    ConsParts(LineBreaks(s));
  }

  /** The text from a boundary to the start of the next line is one break. */
  lemma BreakAtBoundary(s: string, k: nat)
    requires k < |s| && IsLineBoundary(s[k])
    ensures var next := NextLineStart(s, k); var b := s[k..next];
      && IsBreak(b) && (b == "\r" ==> !(k + 1 < |s| && s[k + 1] == '\n'))
      && s[..next] == s[..k] + b
  {
    var next := NextLineStart(s, k);
    assert s[..next] == s[..k] + s[k..next];
    if next == k + 2 {
      assert s[k..next] == "\r\n";
    } else {
      assert s[k..next] == [s[k]];
    }
  }

  /** A break found at `k` ends where `NextLineStart` says. */
  lemma NextLineStartAfterBreak(s: string, k: nat, b: string)
    requires k + |b| <= |s| && s[k..k + |b|] == b && IsBreak(b)
    requires b == "\r" ==> !(k + 1 < |s| && s[k + 1] == '\n')
    ensures NextLineStart(s, k) == k + |b|
  {
    assert s[k] == b[0];
    if b == "\r\n" {
      assert s[k + 1] == b[1];
    } else if s[k] == '\r' && k + 1 < |s| && s[k + 1] == '\n' {
      assert false;
    }
  }

  lemma LinesOfLast(s: string)
    requires s != "" && NoBoundary(s)
    ensures LinesOf(s, [s], [""])
  {
    assert s[..|s|] == s + "";
    assert s[|s|..] == "";
  }

  lemma LinesOfCons(s: string, line: string, b: string, lines: seq<string>, breaks: seq<string>)
    requires |line| + |b| <= |s| && s[..|line| + |b|] == line + b
    requires NoBoundary(line) && IsBreak(b)
    requires b == "\r" ==> !(|line| + 1 < |s| && s[|line| + 1] == '\n')
    requires LinesOf(s[|line| + |b|..], lines, breaks)
    ensures LinesOf(s, [line] + lines, [b] + breaks)
  {
    HeadTail(line, lines);
    HeadTail(b, breaks);
    LinesOfIntro(s, [line] + lines, [b] + breaks);
  }

  /** A first line and break that start the text, followed by a split of the
      rest, make a split of the text. */
  lemma LinesOfIntro(s: string, lines: seq<string>, breaks: seq<string>)
    requires lines != [] && |lines| == |breaks|
    requires var n := |lines[0]| + |breaks[0]|;
      && NoBoundary(lines[0]) && IsBreak(breaks[0])
      && n <= |s| && s[..n] == lines[0] + breaks[0]
      && (breaks[0] == "\r" ==> !(n < |s| && s[n] == '\n'))
      && LinesOf(s[n..], lines[1..], breaks[1..])
    ensures LinesOf(s, lines, breaks)
  {
  }

  /** The head and tail of `[x] + xs`. */
  lemma HeadTail<T>(x: T, xs: seq<T>)
    ensures |[x] + xs| == 1 + |xs| && ([x] + xs)[0] == x && ([x] + xs)[1..] == xs
  {
  }

  /** Any split of the text is the one `SplitLines` computes. */
  lemma {:induction false} SplitLinesUnique(s: string, lines: seq<string>, breaks: seq<string>)
    requires LinesOf(s, lines, breaks)
    ensures lines == SplitLines(s) && breaks == LineBreaks(s)
    decreases |lines|
  {
    if lines != [] {
      LinesOfRest(s, lines, breaks);
      if breaks[0] == "" {
        SplitLinesUniqueLast(s, lines, breaks);
      } else {
        var k, n := |lines[0]|, |lines[0]| + |breaks[0]|;
        FirstLineAt(s, lines, breaks);
        SplitLinesUnique(s[n..], lines[1..], breaks[1..]);
        ConsSplit(s, k, n, lines, breaks);
      }
    }
  }

  /** What remains of a split after its first line and break. */
  lemma LinesOfRest(s: string, lines: seq<string>, breaks: seq<string>)
    requires LinesOf(s, lines, breaks) && lines != []
    ensures var n := |lines[0]| + |breaks[0]|;
      |breaks| == |lines| && n <= |s| && LinesOf(s[n..], lines[1..], breaks[1..])
  {
  }

  /** A split whose first line has no break is the one-line split. */
  lemma SplitLinesUniqueLast(s: string, lines: seq<string>, breaks: seq<string>)
    requires LinesOf(s, lines, breaks) && lines != [] && breaks[0] == ""
    ensures lines == SplitLines(s) && breaks == LineBreaks(s)
  {
    LinesOfHeadLast(s, lines, breaks);
    LineEndAtEnd(s);
    SplitLinesLast(s);
    ConsParts(lines);
    ConsParts(breaks);
  }

  /** The first line of a split ends where `LineEnd` says, and its break
      where `NextLineStart` says. */
  lemma FirstLineAt(s: string, lines: seq<string>, breaks: seq<string>)
    requires LinesOf(s, lines, breaks) && lines != [] && breaks[0] != ""
    ensures var k, n := |lines[0]|, |lines[0]| + |breaks[0]|;
      && k < |s| && n <= |s| && LineEnd(s) == k && NextLineStart(s, k) == n
      && lines[0] == s[..k] && breaks[0] == s[k..n]
  {
    var line, b := lines[0], breaks[0];
    var k := |line|;
    LinesOfHeadBreak(s, lines, breaks);
    LineEndAt(s, k);
    NextLineStartAfterBreak(s, k, b);
  }

  /** A first line and break where `SplitLines` finds them, followed by the
      split of the rest, is the split of the whole text. */
  lemma ConsSplit(s: string, k: nat, n: nat, lines: seq<string>, breaks: seq<string>)
    requires k < |s| && n <= |s| && LineEnd(s) == k && NextLineStart(s, k) == n
    requires lines != [] && lines[0] == s[..k] && lines[1..] == SplitLines(s[n..])
    requires breaks != [] && breaks[0] == s[k..n] && breaks[1..] == LineBreaks(s[n..])
    ensures lines == SplitLines(s) && breaks == LineBreaks(s)
  {
    SplitLinesAt(s, k, n);
    HeadTailEq(lines, SplitLines(s));
    HeadTailEq(breaks, LineBreaks(s));
  }

  /** A first line without a break is the whole text, and the only line. */
  lemma LinesOfHeadLast(s: string, lines: seq<string>, breaks: seq<string>)
    requires LinesOf(s, lines, breaks) && lines != [] && breaks[0] == ""
    ensures s == lines[0] && s != "" && NoBoundary(s) && |lines| == 1 && |breaks| == 1
  {
    var n := |lines[0]|;
    LinesOfUnfold(s, lines, breaks);
    assert s[..n] == lines[0];
    assert s[n..] == "";
    assert s == s[..n] + s[n..];
  }

  /** A first line with a break: the line, then a boundary at its end, then the break. */
  lemma LinesOfHeadBreak(s: string, lines: seq<string>, breaks: seq<string>)
    requires LinesOf(s, lines, breaks) && lines != [] && breaks[0] != ""
    ensures var line, b := lines[0], breaks[0];
      var k, n := |line|, |line| + |b|;
      && k < |s| && n <= |s| && s[..k] == line && NoBoundary(line)
      && IsLineBoundary(s[k]) && IsBreak(b) && s[k..n] == b
      && (b == "\r" ==> !(k + 1 < |s| && s[k + 1] == '\n'))
  {
    LinesOfUnfold(s, lines, breaks);
    PrefixParts(s, lines[0], breaks[0]);
  }

  lemma LinesOfUnfold(s: string, lines: seq<string>, breaks: seq<string>)
    requires LinesOf(s, lines, breaks) && lines != []
    ensures var n := |lines[0]| + |breaks[0]|;
      && |lines| == |breaks| && NoBoundary(lines[0])
      && (IsBreak(breaks[0]) || (|lines| == 1 && breaks[0] == "" && lines[0] != ""))
      && n <= |s| && s[..n] == lines[0] + breaks[0]
      && (breaks[0] == "\r" ==> !(n < |s| && s[n] == '\n'))
      && LinesOf(s[n..], lines[1..], breaks[1..])
  {
  }

  /** A prefix made of `line` then `b` holds each at its place. */
  lemma PrefixParts(s: string, line: string, b: string)
    requires |line| + |b| <= |s| && s[..|line| + |b|] == line + b
    ensures s[..|line|] == line && s[|line|..|line| + |b|] == b
    ensures b != "" ==> s[|line|] == b[0]
  {
    var k, n := |line|, |line| + |b|;
    assert s[..k] == s[..n][..k];
    assert s[k..n] == s[..n][k..n];
    if b != "" {
      assert s[k] == s[..n][k];
    }
  }

  /** `SplitLines` and `LineBreaks` on a text with no boundary. */
  lemma SplitLinesLast(s: string)
    requires s != [] && LineEnd(s) == |s|
    ensures SplitLines(s) == [s] && LineBreaks(s) == [""]
  {
  }

  lemma LineEndAtEnd(s: string)
    requires NoBoundary(s)
    ensures LineEnd(s) == |s|
  {
  }

  /** Every line, stripped. */
  function StripAll(lines: seq<string>): (r: seq<string>)
    ensures |r| == |lines|
    ensures forall i :: 0 <= i < |r| ==> r[i] == Strip(lines[i]) && IsStripped(r[i])
  {
    if lines == [] then [] else [Strip(lines[0])] + StripAll(lines[1..])
  }

  /** The strings that are not empty, in their original order. */
  function NonBlank(xs: seq<string>): (r: seq<string>)
    ensures |r| <= |xs|
    ensures forall c :: c in r <==> c in xs && c != ""
  {
    if xs == [] then []
    else
      assert xs == [xs[0]] + xs[1..];
      if xs[0] == "" then NonBlank(xs[1..]) else [xs[0]] + NonBlank(xs[1..])
  }

  /** The comprehension: each line stripped, blank ones dropped, order kept. */
  function StripNonBlank(lines: seq<string>): (cs: seq<string>)
    ensures |cs| <= |lines|
    ensures forall c :: c in cs ==> c != "" && IsStripped(c)
  {
    NonBlank(StripAll(lines))
  }

  /** Stripping and dropping lines brings in no boundary character. */
  lemma StripNonBlankNoBoundary(lines: seq<string>)
    requires forall l :: l in lines ==> NoBoundary(l)
    ensures forall c :: c in StripNonBlank(lines) ==> NoBoundary(c)
  {
    var stripped := StripAll(lines);
    forall i | 0 <= i < |lines|
      ensures NoBoundary(stripped[i])
    {
      StripKeepsNoBoundary(lines[i]);
    }
  }

  lemma StripKeepsNoBoundary(s: string)
    requires NoBoundary(s)
    ensures NoBoundary(Strip(s))
  {
    var left := StripLeading(s);
    NoBoundaryInfix(s, |s| - |left|, |s|);
    assert s[|s| - |left|..|s|] == left;
    NoBoundaryInfix(left, 0, |StripTrailing(left)|);
    assert left[0..|StripTrailing(left)|] == StripTrailing(left) == Strip(s);
  }

  lemma NoBoundaryInfix(s: string, i: nat, j: nat)
    requires i <= j <= |s| && NoBoundary(s)
    ensures NoBoundary(s[i..j])
  {
    assert forall k :: 0 <= k < j - i ==> s[i..j][k] == s[i + k];
  }

  /** The constraint list built from the text area. Every constraint is
      non-empty, carries no surrounding whitespace and spans one line. */
  function ParseConstraints(text: string): (cs: seq<string>)
    ensures forall i :: 0 <= i < |cs| ==> cs[i] != "" && IsStripped(cs[i]) && NoBoundary(cs[i])
  {
    var lines := SplitLines(text);
    StripNonBlankNoBoundary(lines);
    var cs := StripNonBlank(lines);
    assert forall i :: 0 <= i < |cs| ==> cs[i] in cs;
    cs
  }

  /** Dropping blanks keeps order: the strings kept from two lists are those
      kept from the first followed by those kept from the second. */
  lemma {:induction false} NonBlankAppend(a: seq<string>, b: seq<string>)
    ensures NonBlank(a + b) == NonBlank(a) + NonBlank(b)
  {
    if a == [] {
      assert a + b == b;
    } else {
      assert (a + b)[1..] == a[1..] + b;
      NonBlankAppend(a[1..], b);
    }
  }

  /** The comprehension keeps order: the lines of two blocks give the
      constraints of the first block followed by those of the second. */
  lemma StripNonBlankAppend(l1: seq<string>, l2: seq<string>)
    ensures StripNonBlank(l1 + l2) == StripNonBlank(l1) + StripNonBlank(l2)
  {
    StripAllAppend(l1, l2);
    NonBlankAppend(StripAll(l1), StripAll(l2));
  }

  lemma {:induction false} StripAllAppend(a: seq<string>, b: seq<string>)
    ensures StripAll(a + b) == StripAll(a) + StripAll(b)
  {
    if a == [] {
      assert a + b == b;
    } else {
      assert (a + b)[1..] == a[1..] + b;
      StripAllAppend(a[1..], b);
    }
  }

  /** A constraint is kept exactly when it is some line, stripped, and not blank. */
  lemma StripNonBlankMember(lines: seq<string>, c: string)
    ensures c in StripNonBlank(lines) <==> c != "" && exists i :: 0 <= i < |lines| && Strip(lines[i]) == c
  {
    var stripped := StripAll(lines);
    if c in stripped {
      var i :| 0 <= i < |stripped| && stripped[i] == c;
      assert Strip(lines[i]) == c;
    }
    if exists i :: 0 <= i < |lines| && Strip(lines[i]) == c {
      var i :| 0 <= i < |lines| && Strip(lines[i]) == c;
      assert stripped[i] == c;
    }
  }

  /** Constraints written one per line, as the text area expects them. */
  function JoinLines(cs: seq<string>): string
  {
    if cs == [] then ""
    else if |cs| == 1 then cs[0]
    else cs[0] + "\n" + JoinLines(cs[1..])
  }

  /** Lines joined with "\n" split back into the same lines, empty ones
      included, as long as the last line is not empty (a final empty line
      leaves only a trailing "\n", which starts no line). */
  lemma {:induction false} SplitJoin(cs: seq<string>)
    requires forall i :: 0 <= i < |cs| ==> NoBoundary(cs[i])
    requires cs != [] ==> cs[|cs| - 1] != ""
    ensures SplitLines(JoinLines(cs)) == cs
  {
    if |cs| == 1 {
      LineEndAtEnd(cs[0]);
      SplitLinesLast(cs[0]);
      ConsParts(cs);
    } else if |cs| > 1 {
      var s, line, rest := JoinLines(cs), cs[0], JoinLines(cs[1..]);
      assert s == line + ['\n'] + rest;
      JoinParts(line, '\n', rest);
      LineEndAt(s, |line|);
      SplitLinesStep(s);
      SplitJoin(cs[1..]);
      ConsParts(cs);
    }
  }

  /** Two lists with the same head and the same tail are equal. */
  lemma HeadTailEq<T>(xs: seq<T>, ys: seq<T>)
    requires xs != [] && ys != [] && xs[0] == ys[0] && xs[1..] == ys[1..]
    ensures xs == ys
  {
    ConsParts(xs);
    ConsParts(ys);
  }

  /** A non-empty list is its head followed by its tail. */
  lemma ConsParts<T>(xs: seq<T>)
    requires xs != []
    ensures xs == [xs[0]] + xs[1..]
  {
  }

  /** The parts of `a + [c] + b`, each at its place. */
  lemma JoinParts<T>(a: seq<T>, c: T, b: seq<T>)
    ensures var s := a + [c] + b;
      && |s| == |a| + 1 + |b| && s[..|a|] == a && s[|a|] == c && s[|a| + 1..] == b
  {
    var s := a + [c] + b;
    assert s[..|a|] == a;
    assert s[|a| + 1..] == b;
  }

  lemma LineEndAt(s: string, k: nat)
    requires k < |s| && NoBoundary(s[..k]) && IsLineBoundary(s[k])
    ensures LineEnd(s) == k
  {
  }

  /** A list of clean constraints written one per line parses back to itself. */
  lemma ParseJoin(cs: seq<string>)
    requires forall i :: 0 <= i < |cs| ==> cs[i] != "" && IsStripped(cs[i]) && NoBoundary(cs[i])
    ensures ParseConstraints(JoinLines(cs)) == cs
  {
    SplitJoin(cs);
    StripNonBlankClean(cs);
  }

  lemma StripNonBlankClean(cs: seq<string>)
    requires forall i :: 0 <= i < |cs| ==> cs[i] != "" && IsStripped(cs[i])
    ensures StripNonBlank(cs) == cs
  {
    forall i | 0 <= i < |cs|
      ensures StripAll(cs)[i] == cs[i]
    {
      StripStripped(cs[i]);
    }
    assert StripAll(cs) == cs;
    NonBlankNoEmpty(cs);
  }

  lemma {:induction false} NonBlankNoEmpty(xs: seq<string>)
    requires forall i :: 0 <= i < |xs| ==> xs[i] != ""
    ensures NonBlank(xs) == xs
  {
    if xs != [] {
      NonBlankNoEmpty(xs[1..]);
    }
  }

  /** Writing the parsed constraints back one per line and parsing again
      changes nothing. */
  lemma ParseIdempotent(text: string)
    ensures ParseConstraints(JoinLines(ParseConstraints(text))) == ParseConstraints(text)
  {
    ParseJoin(ParseConstraints(text));
  }
}
