/** Lines of a text: `splitlines`, joining, and the non-blank lines without their surrounding space. */
module Lines {
  import opened Text

  function LineEnd(s: string): (end: nat)
    ensures end <= |s| && (forall i | 0 <= i < end :: !Break(s[i])) && (end < |s| ==> Break(s[end]))
  {
    if s == "" || Break(s[0]) then 0 else 1 + LineEnd(s[1..])
  }

  /** Past the line break at position `i`; a carriage return takes a following newline with it. */
  function Past(s: string, i: nat): (next: nat)
    requires i < |s|
    ensures i < next <= |s|
  {
    if s[i] == '\r' && i + 1 < |s| && s[i + 1] == '\n' then i + 2 else i + 1
  }

  function SplitLines(s: string): seq<string>
    decreases |s|
  {
    if s == "" then []
    else
      var end := LineEnd(s);
      if end == |s| then [s] else [s[..end]] + SplitLines(s[Past(s, end)..])
  }

  function Join(separator: string, parts: seq<string>): string {
    if parts == [] then ""
    else if |parts| == 1 then parts[0]
    else parts[0] + separator + Join(separator, parts[1..])
  }

  /** The stripped lines that are not blank. */
  function Clean(lines: seq<string>): seq<string> {
    if lines == [] then []
    else (if Strip(lines[0]) == "" then [] else [Strip(lines[0])]) + Clean(lines[1..])
  }

  function CleanLines(s: string): seq<string> { Clean(SplitLines(s)) }

  predicate OneLine(s: string) { forall i | 0 <= i < |s| :: !Break(s[i]) }

  /** Trimmed, not blank, and on one line. */
  predicate Plain(s: string) { s != "" && Trimmed(s) && OneLine(s) }

  lemma {:induction false} LineEndOf(s: string, end: nat)
    requires end <= |s| && (forall i | 0 <= i < end :: !Break(s[i])) && (end < |s| ==> Break(s[end]))
    ensures LineEnd(s) == end
  {
    if end > 0 { LineEndOf(s[1..], end - 1); }
  }

  lemma {:induction false} CleanConcat(a: seq<string>, b: seq<string>)
    ensures Clean(a + b) == Clean(a) + Clean(b)
  {
    if a == [] {
      assert a + b == b;
    } else {
      assert (a + b)[1..] == a[1..] + b;
      CleanConcat(a[1..], b);
    }
  }

  lemma PlainLine(s: string)
    requires Plain(s)
    ensures CleanLines(s) == [s]
  {
    LineEndOf(s, |s|);
    TrimmedStrip(s);
    assert Clean([s][1..]) == [];
  }

  lemma SplitHead(s: string)
    requires s != "" && LineEnd(s) < |s|
    ensures CleanLines(s) == Clean([s[..LineEnd(s)]]) + CleanLines(s[Past(s, LineEnd(s))..])
  {
    CleanConcat([s[..LineEnd(s)]], SplitLines(s[Past(s, LineEnd(s))..]));
  }

  lemma BlankStart(s: string)
    requires s != "" && Break(s[0])
    ensures CleanLines(s) == CleanLines(s[1..])
  {
    LineEndOf(s, 0);
    SplitHead(s);
    assert Clean([""]) == [];
    assert s[..0] == "";
    if Past(s, 0) == 2 {
      LineEndOf(s[1..], 0);
      SplitHead(s[1..]);
      assert s[1..][..0] == "" && s[1..][1..] == s[2..] && Past(s[1..], 0) == 1;
    }
  }

  lemma OnlyLine(s: string)
    requires LineEnd(s) == |s|
    ensures CleanLines(s) == if Strip(s) == "" then [] else [Strip(s)]
  {
    assert s == "" ==> Strip(s) == "";
    assert Clean([s][1..]) == [];
  }

  lemma CleanOne(s: string)
    ensures Clean([s]) == if Strip(s) == "" then [] else [Strip(s)]
  {
    assert Clean([s][1..]) == [];
  }

  /** A line break between two texts keeps their lines apart. */
  lemma {:induction false} CleanLinesBreak(a: string, c: char, b: string)
    requires Break(c)
    ensures CleanLines(a + [c] + b) == CleanLines(a) + CleanLines(b)
    decreases |a|
  {
    hide Clean, SplitLines, LineEnd, Strip, CleanLines;
    var s, end := a + [c] + b, LineEnd(a);
    assert end < |a| ==> s[end] == a[end];
    assert end == |a| ==> s[end] == c;
    assert forall i | 0 <= i < end :: s[i] == a[i];
    LineEndOf(s, end);
    SplitHead(s);
    assert s[..end] == a[..end];
    CleanOne(a[..end]);
    if end == |a| {
      assert a[..end] == a;
      OnlyLine(a);
      LastBreak(a, c, b);
    } else {
      SplitHead(a);
      if Past(s, end) == Past(a, end) {
        assert s[Past(s, end)..] == a[Past(a, end)..] + [c] + b;
        CleanLinesBreak(a[Past(a, end)..], c, b);
      } else {
        assert a[Past(a, end)..] == "";
        NoLines();
        assert s[Past(s, end)..] == b;
      }
    }
  }

  lemma NoLines()
    ensures CleanLines("") == []
  {
  }

  lemma LastBreak(a: string, c: char, b: string)
    requires Break(c)
    ensures CleanLines((a + [c] + b)[Past(a + [c] + b, |a|)..]) == CleanLines(b)
  {
    var s := a + [c] + b;
    if Past(s, |a|) == |a| + 1 {
      assert s[|a| + 1..] == b;
    } else {
      assert s[|a| + 2..] == b[1..] && b[0] == '\n';
      BlankStart(b);
    }
  }

  lemma {:induction false} CleanLinesJoin(parts: seq<string>, last: string)
    ensures CleanLines(Join("\n", parts + [last])) == CleanParts(parts) + CleanLines(last)
  {
    hide CleanLines;
    if parts == [] {
      assert parts + [last] == [last];
    } else {
      var rest := Join("\n", parts[1..] + [last]);
      assert (parts + [last])[1..] == parts[1..] + [last];
      assert Join("\n", parts + [last]) == parts[0] + ['\n'] + rest;
      CleanLinesJoin(parts[1..], last);
      CleanLinesBreak(parts[0], '\n', rest);
    }
  }

  /** The lines of all the parts, one part after the other. */
  function CleanParts(parts: seq<string>): seq<string> {
    if parts == [] then [] else CleanLines(parts[0]) + CleanParts(parts[1..])
  }

  lemma {:induction false} CleanPartsConcat(a: seq<string>, b: seq<string>)
    ensures CleanParts(a + b) == CleanParts(a) + CleanParts(b)
  {
    if a == [] {
      assert a + b == b;
    } else {
      assert (a + b)[1..] == a[1..] + b;
      CleanPartsConcat(a[1..], b);
    }
  }

  lemma JoinedLines(parts: seq<string>)
    ensures CleanLines(Join("\n", parts)) == CleanParts(parts)
  {
    if parts != [] {
      var n := |parts| - 1;
      assert parts == parts[..n] + [parts[n]];
      CleanLinesJoin(parts[..n], parts[n]);
      CleanPartsConcat(parts[..n], [parts[n]]);
    }
  }

  lemma {:induction false} PlainParts(parts: seq<string>)
    requires forall p | p in parts :: Plain(p)
    ensures CleanParts(parts) == parts
  {
    if parts != [] {
      PlainLine(parts[0]);
      PlainParts(parts[1..]);
    }
  }

  lemma {:induction false} StripTrailing(s: string, c: char)
    requires Space(c)
    ensures Strip(s + [c]) == Strip(s)
  {
    assert (s + [c])[..|s|] == s;
  }

  lemma {:induction false} TrailingSpace(s: string, c: char)
    requires Space(c)
    ensures CleanLines(s + [c]) == CleanLines(s)
    decreases |s|
  {
    hide Clean, SplitLines, LineEnd, Strip, CleanLines;
    var end := LineEnd(s);
    assert forall i | 0 <= i < end :: (s + [c])[i] == s[i];
    if Break(c) {
      assert s + [c] == s + [c] + "";
      CleanLinesBreak(s, c, "");
      NoLines();
    } else if end == |s| {
      LineEndOf(s + [c], |s| + 1);
      OnlyLine(s);
      OnlyLine(s + [c]);
      StripTrailing(s, c);
    } else {
      LineEndOf(s + [c], end);
      SplitHead(s);
      SplitHead(s + [c]);
      assert (s + [c])[..end] == s[..end];
      assert (s + [c])[Past(s, end)..] == s[Past(s, end)..] + [c];
      TrailingSpace(s[Past(s, end)..], c);
    }
  }

  lemma {:induction false} CleanRStrip(s: string)
    ensures CleanLines(RStrip(s)) == CleanLines(s)
  {
    if s != "" && Space(s[|s| - 1]) {
      CleanRStrip(s[..|s| - 1]);
      TrailingSpace(s[..|s| - 1], s[|s| - 1]);
      assert s[..|s| - 1] + [s[|s| - 1]] == s;
    }
  }

  /** Space at the end of a text, line breaks included, hides no line. */
  lemma CleanTrailing(s: string)
    requires s != "" && !Space(s[0])
    ensures CleanLines(Strip(s) + "\n") == CleanLines(s)
  {
    CleanRStrip(s);
    RStripHead(s);
    CleanLinesBreak(Strip(s), '\n', "");
    assert Strip(s) + "\n" == Strip(s) + ['\n'] + "";
    assert CleanLines("") == [];
  }

  lemma {:induction false} RStripHead(s: string)
    requires s != "" && !Space(s[0])
    ensures RStrip(s) != "" && RStrip(s)[0] == s[0] && Strip(s) == RStrip(s)
  {
    if Space(s[|s| - 1]) { RStripHead(s[..|s| - 1]); }
  }

  lemma {:induction false} LStripAll(s: string, c: char)
    requires Space(c)
    ensures Strip([c] + s) == Strip(s)
  {
    if s == "" {
    } else if Space(s[|s| - 1]) {
      assert ([c] + s)[..|s|] == [c] + s[..|s| - 1];
      LStripAll(s[..|s| - 1], c);
    } else {
      assert RStrip([c] + s) == [c] + s;
      assert ([c] + s)[1..] == s;
    }
  }

  lemma LeadingSpace(c: char, s: string)
    requires Space(c)
    ensures CleanLines([c] + s) == CleanLines(s)
  {
    hide Clean, SplitLines, LineEnd, Strip, CleanLines;
    var t, end := [c] + s, LineEnd(s);
    assert t[1..] == s;
    if Break(c) {
      BlankStart(t);
    } else {
      assert forall i | 0 < i <= end :: t[i] == s[i - 1];
      assert end < |s| ==> t[end + 1] == s[end];
      LineEndOf(t, end + 1);
      if end == |s| {
        OnlyLine(s);
        OnlyLine(t);
        LStripAll(s, c);
      } else {
        SplitHead(s);
        SplitHead(t);
        CleanOne(s[..end]);
        CleanOne(t[..end + 1]);
        LStripAll(s[..end], c);
        assert t[..end + 1] == [c] + s[..end];
        assert t[Past(t, end + 1)..] == s[Past(s, end)..];
      }
    }
  }

  lemma {:induction false} CleanLStrip(s: string)
    ensures CleanLines(LStrip(s)) == CleanLines(s)
  {
    if s != "" && Space(s[0]) {
      hide CleanLines;
      CleanLStrip(s[1..]);
      LeadingSpace(s[0], s[1..]);
      assert [s[0]] + s[1..] == s;
    }
  }

  /** Stripping a text hides none of its lines. */
  lemma CleanStrip(s: string)
    ensures CleanLines(Strip(s)) == CleanLines(s)
  {
    CleanRStrip(s);
    CleanLStrip(RStrip(s));
  }

  lemma {:induction false} StripOneLine(s: string)
    requires OneLine(s)
    ensures OneLine(Strip(s))
  {
    RStripOneLine(s);
    LStripOneLine(RStrip(s));
  }

  lemma {:induction false} RStripOneLine(s: string)
    requires OneLine(s)
    ensures OneLine(RStrip(s))
  {
    if s != "" && Space(s[|s| - 1]) { RStripOneLine(s[..|s| - 1]); }
  }

  lemma {:induction false} LStripOneLine(s: string)
    requires OneLine(s)
    ensures OneLine(LStrip(s))
  {
    if s != "" && Space(s[0]) { LStripOneLine(s[1..]); }
  }

  lemma {:induction false} CleanPlain(lines: seq<string>)
    requires forall l | l in lines :: OneLine(l)
    ensures forall l | l in Clean(lines) :: Plain(l)
  {
    if lines != [] {
      CleanPlain(lines[1..]);
      StripOneLine(lines[0]);
      StripTrims(lines[0]);
    }
  }

  lemma {:induction false} SplitOneLine(s: string)
    ensures forall l | l in SplitLines(s) :: OneLine(l)
    decreases |s|
  {
    if s != "" && LineEnd(s) < |s| { SplitOneLine(s[Past(s, LineEnd(s))..]); }
  }

  lemma CleanLinesPlain(s: string)
    ensures forall l | l in CleanLines(s) :: Plain(l)
  {
    SplitOneLine(s);
    CleanPlain(SplitLines(s));
  }

  lemma OneLineParts(a: string, b: string)
    ensures OneLine(a) && OneLine(b) ==> OneLine(a + b)
  {
  }

  lemma {:induction false} JoinOneLine(separator: string, parts: seq<string>)
    requires OneLine(separator) && forall p | p in parts :: OneLine(p)
    ensures OneLine(Join(separator, parts))
  {
    if parts != [] {
      assert parts[0] in parts;
      if |parts| > 1 {
        JoinOneLine(separator, parts[1..]);
        OneLineParts(parts[0], separator);
        OneLineParts(parts[0] + separator, Join(separator, parts[1..]));
      }
    }
  }

  lemma OnePart(part: string)
    ensures CleanParts([part]) == CleanLines(part)
  {
    assert [part][1..] == [];
  }
}
