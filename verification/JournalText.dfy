/** The journal file as text: what the first characters of an encoded line do to the lines that are read back. */
module JournalText {
  import opened Text
  import opened Lines
  import opened AuditJournal

  function Parsed(parse: string -> Line, lines: seq<string>): seq<Line> {
    seq(|lines|, i requires 0 <= i < |lines| => parse(lines[i]))
  }

  predicate EndsLine(text: string) { text == "" || Break(text[|text| - 1]) }

  function FileOf(parse: string -> Line, text: string): File { File(Parsed(parse, SplitLines(text)), EndsLine(text)) }

  /** The text is the JSON of the entry on one line. No shorter beginning of it is JSON, and neither is any of it behind
      a whole object. */
  ghost predicate Encodes(parse: string -> Line, text: string, entry: Entry) {
    && text != "" && OneLine(text) && parse(text) == Record(entry)
    && (forall k | 0 < k < |text| :: parse(text[..k]) == Malformed)
    && (forall before, k | parse(before).Record? && 0 < k <= |text| :: parse(before + text[..k]) == Malformed)
  }

  /** What `kept` characters of the text and its line break amount to. */
  function ReachOf(text: string, kept: nat): Reach {
    if kept == 0 then Nothing else if kept < |text| then Part else if kept == |text| then WithoutBreak else Whole
  }

  lemma SplitOne(line: string, end: string)
    requires OneLine(line) && line != "" && (end == "" || end == "\n")
    ensures SplitLines(line + end) == [line]
  {
    LineEndOf(line + end, |line|);
    assert (line + end)[..|line|] == line;
    if end == "\n" {
      assert (line + end)[|line| + 1..] == "" && SplitLines("") == [];
    } else {
      assert line + end == line;
    }
  }

  /** Behind the break that ends its first line, a text splits like any other. */
  lemma SplitFirst(text: string, stop: nat, next: nat)
    requires stop < |text| && Break(text[stop]) && (forall i | 0 <= i < stop :: !Break(text[i]))
    requires next == Past(text, stop)
    ensures SplitLines(text) == [text[..stop]] + SplitLines(text[next..])
  {
    LineEndOf(text, stop);
    hide LineEnd, Break;
  }

  lemma EndsRest(text: string, stop: nat, next: nat)
    requires stop < |text| && Break(text[stop]) && next == Past(text, stop)
    ensures EndsLine(text) <==> EndsLine(text[next..])
  {
    assert Break('\n');
    hide Break;
    if next < |text| { assert text[next..][|text| - next - 1] == text[|text| - 1]; }
  }

  lemma PastKept(before: string, tail: string, stop: nat)
    requires stop < |before| && tail != "" && tail[0] != '\n'
    ensures Past(before + tail, stop) == Past(before, stop)
    ensures (before + tail)[Past(before, stop)..] == before[Past(before, stop)..] + tail
  {
  }

  /** The lines with one more at their end, or with more text on the last of them. */
  predicate Grown(lines: seq<string>, grown: seq<string>, line: string, apart: bool) {
    if apart then grown == lines + [line]
    else var n := |lines| - 1; n >= 0 && grown == lines[..n] + [lines[n] + line]
  }

  lemma GrownBehind(first: string, lines: seq<string>, grown: seq<string>, line: string, apart: bool)
    requires Grown(lines, grown, line, apart)
    ensures Grown([first] + lines, [first] + grown, line, apart)
  {
    if !apart { assert ([first] + lines)[..|lines|] == [first] + lines[..|lines| - 1]; }
  }

  /** A text and its continuation have the same first line, if that line has a break. */
  lemma SameFirst(before: string, tail: string, stop: nat, next: nat)
    requires stop < |before| && Break(before[stop]) && (forall i | 0 <= i < stop :: !Break(before[i]))
    requires next == Past(before, stop) && tail != "" && tail[0] != '\n'
    ensures SplitLines(before) == [before[..stop]] + SplitLines(before[next..])
    ensures SplitLines(before + tail) == [before[..stop]] + SplitLines(before[next..] + tail)
  {
    hide Break, Past, SplitLines;
    var text := before + tail;
    PastKept(before, tail, stop);
    assert text[..stop] == before[..stop];
    SplitFirst(before, stop, next);
    SplitFirst(text, stop, next);
  }

  /** Text behind a finished line is a line of its own, and behind an unfinished one continues it. */
  lemma {:induction false} SplitTail(before: string, line: string, end: string)
    requires OneLine(line) && line != "" && (end == "" || end == "\n")
    ensures Grown(SplitLines(before), SplitLines(before + (line + end)), line, EndsLine(before))
    decreases |before|
  {
    var stop := LineEnd(before);
    assert Break('\n');
    hide Break, Past, LineEnd, SplitLines, EndsLine;
    if stop == |before| {
      UnbrokenTail(before, line, end);
      assert before + (line + end) == before + line + end;
      assert before == "" ==> before + line == line;
    } else {
      var next := Past(before, stop);
      hide Grown;
      SameFirst(before, line + end, stop, next);
      EndsRest(before, stop, next);
      SplitTail(before[next..], line, end);
      GrownBehind(before[..stop], SplitLines(before[next..]), SplitLines(before[next..] + (line + end)), line,
                  EndsLine(before));
    }
  }

  lemma UnbrokenTail(before: string, line: string, end: string)
    requires OneLine(before) && OneLine(line) && line != "" && (end == "" || end == "\n")
    ensures SplitLines(before + line + end) == [before + line]
    ensures SplitLines(before) == (if before == "" then [] else [before]) && (EndsLine(before) <==> before == "")
  {
    SplitOne(before + line, end);
    if before != "" {
      SplitOne(before, "");
      assert before + "" == before;
    }
  }

  lemma ParsedEnd(parse: string -> Line, lines: seq<string>, line: string)
    ensures Parsed(parse, lines + [line]) == Parsed(parse, lines) + [parse(line)]
    ensures lines != [] ==> Parsed(parse, lines[..|lines| - 1]) == Parsed(parse, lines)[..|lines| - 1]
  {
  }

  /** A beginning of an encoded line behind the text of any file. */
  lemma TailParsed(parse: string -> Line, before: string, line: string, end: string)
    requires OneLine(line) && line != "" && (end == "" || end == "\n")
    ensures
      var file, next := FileOf(parse, before), FileOf(parse, before + line + end);
      var n := |file.lines| - 1;
      && next.terminated == (end == "\n")
      && (if file.AtLineStart() then next.lines == file.lines + [parse(line)]
          else n >= 0 && next.lines == file.lines[..n] + [parse(SplitLines(before)[n] + line)]
               && file.lines[n] == parse(SplitLines(before)[n]))
  {
    var lines, text := SplitLines(before), before + line + end;
    SplitTail(before, line, end);
    assert before + (line + end) == text;
    SplitNone(before);
    LastChar(before, line, end);
    hide SplitLines, OneLine;
    var n := |lines| - 1;
    ParsedEnd(parse, if EndsLine(before) then lines else lines[..n], if EndsLine(before) then line else lines[n] + line);
    ParsedEnd(parse, lines, line);
    hide EndsLine, Parsed;
  }

  lemma LastChar(before: string, line: string, end: string)
    requires OneLine(line) && line != "" && (end == "" || end == "\n")
    ensures EndsLine(before + line + end) <==> end == "\n"
  {
    assert Break('\n');
    hide Break;
    var text := before + line + end;
    if end == "\n" { assert text[|text| - 1] == '\n'; } else { assert text[|text| - 1] == line[|line| - 1]; }
  }

  /** Whatever part of an encoded line reaches the file, the lines read back are the ones `Written` says. */
  lemma WrittenAsText(parse: string -> Line, before: string, text: string, entry: Entry, kept: nat)
    requires Encodes(parse, text, entry) && kept <= |text| + 1
    requires forall line | line in FileOf(parse, before).lines :: line.Record?
    ensures FileOf(parse, before + (text + "\n")[..kept]) == Written(FileOf(parse, before), entry, ReachOf(text, kept))
  {
    var piece := (text + "\n")[..kept];
    if kept == 0 {
      assert before + piece == before;
    } else {
      var size := if kept <= |text| then kept else |text|;
      var line, end := text[..size], if kept <= |text| then "" else "\n";
      assert size == |text| ==> line == text;
      assert piece == line + end && before + piece == before + line + end;
      assert OneLine(line);
      TailParsed(parse, before, line, end);
      var file := FileOf(parse, before);
      if !file.AtLineStart() {
        var last := SplitLines(before)[|file.lines| - 1];
        assert file.lines[|file.lines| - 1] in file.lines;
        assert parse(last + text[..size]) == Malformed;
      }
      hide FileOf, SplitLines, OneLine;
    }
  }

  lemma SplitNone(text: string)
    ensures SplitLines(text) == [] <==> text == ""
  {
  }
}
