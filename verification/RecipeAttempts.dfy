/** The attempt log of a recipe: appending attempts to its text, and reading them back. */
module RecipeAttempts {
  import opened Prelude
  import opened Text
  import opened Lines

  datatype Attempt = Attempt(
    heading: string, tags: seq<string>, notes: seq<string>, outcome: Option<string>, nextTime: Option<string>)

  /** The finished attempts, and the one being read. */
  datatype Log = Log(done: seq<Attempt>, current: Option<Attempt>)

  const START := Log([], None)

  function SectionHeading(line: string): Option<string> {
    if "##" <= line && |line| > 2 && Space(line[2]) && Strip(line[2..]) != "" then Some(Strip(line[2..])) else None
  }

  predicate StartsWith(line: string, prefix: string) { prefix <= Lower(line) }

  /** What follows a field name and its colon. */
  function Rest(line: string, prefix: string): string
    requires StartsWith(line, prefix)
  {
    line[|prefix|..]
  }

  function TagList(parts: seq<string>): seq<string> { Clean(parts) }

  predicate Truthy(text: Option<string>) { text.Some? && text.value != "" }

  predicate IsAttempt(a: Attempt) {
    (exists t :: t in a.tags && Lower(t) == "recipe_attempt") || Truthy(a.outcome) || Truthy(a.nextTime)
  }

  function Close(log: Log): seq<Attempt> {
    if log.current.Some? && IsAttempt(log.current.value) then log.done + [log.current.value] else log.done
  }

  function LogStep(log: Log, line: string): Log {
    var heading := SectionHeading(line);
    if heading.Some? then Log(Close(log), Some(Attempt(heading.value, [], [], None, None)))
    else if log.current.None? then log
    else
      var a := log.current.value;
      log.(current := Some(
        if StartsWith(line, "tags:") then a.(tags := TagList(Split(Rest(line, "tags:"), ',')))
        else if StartsWith(line, "outcome:") then a.(outcome := Some(Strip(Rest(line, "outcome:"))))
        else if StartsWith(line, "next time:") then a.(nextTime := Some(Strip(Rest(line, "next time:"))))
        else if line != "" then a.(notes := a.notes + [line])
        else a))
  }

  /** The log after the lines, each stripped first. */
  function ReadLog(log: Log, lines: seq<string>): Log {
    if lines == [] then log else LogStep(ReadLog(log, lines[..|lines| - 1]), Strip(lines[|lines| - 1]))
  }

  datatype Recorded = Recorded(
    heading: string, tags: seq<string>, notes: string, outcome: Option<string>, nextTime: Option<string>)

  function Finalized(a: Attempt): Recorded {
    Recorded(a.heading, a.tags, Strip(Join("\n", a.notes)), a.outcome, a.nextTime)
  }

  function AllFinalized(attempts: seq<Attempt>): seq<Recorded> {
    seq(|attempts|, i requires 0 <= i < |attempts| => Finalized(attempts[i]))
  }

  function Attempts(body: string): seq<Recorded> { AllFinalized(Close(ReadLog(START, SplitLines(body)))) }

  method ExtractRecipeAttempts(body: string) returns (attempts: seq<Recorded>)
    ensures attempts == Attempts(body)
  {
    hide LogStep, IsAttempt;
    var lines := SplitLines(body);
    var log := START;
    assert lines[..0] == [];
    for k := 0 to |lines|
      invariant log == ReadLog(START, lines[..k])
    {
      assert lines[..k + 1][..k] == lines[..k];
      log := LogStep(log, Strip(lines[k]));
    }
    assert lines[..|lines|] == lines;
    return AllFinalized(Close(log));
  }

  // ---- appending

  /** One attempt as the caller gives it; absent texts are empty. */
  datatype Given = Given(stamp: string, notes: string, outcome: string, nextTime: string, tags: seq<string>)

  function Line(name: string, value: string): seq<string> { if value == "" then [] else [name + ": " + value] }

  function Entry(g: Given): string {
    Join("\n", [Strip(g.notes)] + Line("Outcome", g.outcome) + Line("Next time", g.nextTime))
  }

  function Block(stamp: string, tags: seq<string>, entry: string): string {
    Join("\n", ["## " + stamp] + (if tags == [] then [] else ["Tags: " + Join(", ", tags)]) + [Strip(entry)]) + "\n\n"
  }

  function WithNewline(text: string): string {
    if text != "" && text[|text| - 1] != '\n' then text + "\n" else text
  }

  function Appended(existing: string, g: Given): string {
    WithNewline(existing) + Block(g.stamp, ["recipe_attempt"] + g.tags, Entry(g))
  }

  /** The notes of one recipe, as a file that is only ever appended to. */
  class RecipeFile {
    var content: string

    constructor (text: string)
      ensures content == text
    {
      content := text;
    }

    method AppendMarkdownLog(stamp: string, tags: seq<string>, entry: string)
      modifies this
      ensures content == WithNewline(old(content)) + Block(stamp, tags, entry)
    {
      var block := ["## " + stamp];
      if tags != [] { block := block + ["Tags: " + Join(", ", tags)]; }
      block := block + [Strip(entry)];
      var existing := content;
      if existing != "" && existing[|existing| - 1] != '\n' { existing := existing + "\n"; }
      assert ["## " + stamp] + [] == ["## " + stamp];
      content := existing + (Join("\n", block) + "\n\n");
    }

    method AppendRecipeAttempt(g: Given)
      modifies this
      ensures content == Appended(old(content), g)
    {
      var lines := [Strip(g.notes)];
      assert lines + [] == lines;
      if g.outcome != "" { lines := lines + ["Outcome: " + g.outcome]; }
      assert lines == [Strip(g.notes)] + Line("Outcome", g.outcome) by {
        assert "Outcome" + ": " + g.outcome == "Outcome: " + g.outcome;
      }
      assert lines + [] == lines && "Next time" + ": " + g.nextTime == "Next time: " + g.nextTime;
      if g.nextTime != "" { lines := lines + ["Next time: " + g.nextTime]; }
      AppendMarkdownLog(g.stamp, ["recipe_attempt"] + g.tags, Join("\n", lines));
    }
  }

  // ---- reading back

  /** A line that the reader keeps as a note. */
  predicate NoteLine(line: string) {
    && SectionHeading(line).None?
    && !StartsWith(line, "tags:") && !StartsWith(line, "outcome:") && !StartsWith(line, "next time:")
  }

  predicate TagText(tag: string) { Plain(tag) && ',' !in tag }

  /** Plain values, and tags without commas. */
  predicate Tidy(g: Given) {
    && Plain(g.stamp) && (g.outcome == "" || Plain(g.outcome)) && (g.nextTime == "" || Plain(g.nextTime))
    && forall t | t in g.tags :: TagText(t)
  }

  /** The notes are nothing but notes. */
  predicate OnlyNotes(g: Given) { forall l | l in CleanLines(g.notes) :: NoteLine(l) }

  /** The attempt can be told from its surroundings. */
  predicate Legible(g: Given) { Tidy(g) && OnlyNotes(g) }

  function Optional(value: string): Option<string> { if value == "" then None else Some(value) }

  function Meant(g: Given): Attempt {
    Attempt(g.stamp, ["recipe_attempt"] + g.tags, CleanLines(g.notes), Optional(g.outcome), Optional(g.nextTime))
  }

  lemma {:induction false} ReadLogConcat(log: Log, a: seq<string>, b: seq<string>)
    ensures ReadLog(log, a + b) == ReadLog(ReadLog(log, a), b)
    decreases |b|
  {
    hide LogStep;
    if b == [] {
      assert a + b == a;
    } else {
      assert (a + b)[..|a + b| - 1] == a + b[..|b| - 1];
      ReadLogConcat(log, a, b[..|b| - 1]);
    }
  }

  lemma ReadOneLine(log: Log, line: string)
    ensures ReadLog(log, [line]) == LogStep(log, Strip(line))
  {
    assert [line][..0] == [];
  }

  lemma BlankStep(log: Log)
    ensures LogStep(log, "") == log
  {
  }

  /** Blank lines and surrounding space change nothing. */
  lemma {:induction false} ReadClean(log: Log, lines: seq<string>)
    ensures ReadLog(log, lines) == ReadLog(log, Clean(lines))
    decreases |lines|
  {
    hide LogStep;
    if lines != [] {
      var line := lines[0];
      assert lines == [line] + lines[1..];
      ReadLogConcat(log, [line], lines[1..]);
      ReadOneLine(log, line);
      ReadClean(ReadLog(log, [line]), lines[1..]);
      StripTrims(line);
      TrimmedStrip(Strip(line));
      if Strip(line) == "" {
        BlankStep(log);
        assert [] + Clean(lines[1..]) == Clean(lines[1..]);
      } else {
        ReadLogConcat(log, [Strip(line)], Clean(lines[1..]));
        ReadOneLine(log, Strip(line));
      }
    }
  }

  /** What was done before a heading line stays done, and the rest is read as if it stood alone. */
  lemma {:induction false} HeadingSeparates(log: Log, lines: seq<string>)
    requires lines != [] && SectionHeading(Strip(lines[0])).Some?
    ensures ReadLog(log, lines).current == ReadLog(START, lines).current
    ensures ReadLog(log, lines).done == Close(log) + ReadLog(START, lines).done
    decreases |lines|
  {
    var n := |lines| - 1;
    if n == 0 {
      assert lines == [lines[0]];
      ReadOneLine(log, lines[0]);
      ReadOneLine(START, lines[0]);
    } else {
      HeadingSeparates(log, lines[..n]);
      SeparateStep(ReadLog(log, lines[..n]), ReadLog(START, lines[..n]), Close(log), Strip(lines[n]));
    }
  }

  lemma SeparateStep(a: Log, b: Log, before: seq<Attempt>, line: string)
    requires a.current == b.current && a.done == before + b.done
    ensures LogStep(a, line).current == LogStep(b, line).current
    ensures LogStep(a, line).done == before + LogStep(b, line).done
  {
    hide IsAttempt, StartsWith, SectionHeading, TagList;
  }

  /** Text that begins with a heading adds its own attempts to those before it. */
  lemma Homomorphism(existing: seq<string>, added: seq<string>)
    requires added != [] && SectionHeading(Strip(added[0])).Some?
    ensures Close(ReadLog(START, existing + added)) == Close(ReadLog(START, existing)) + Close(ReadLog(START, added))
  {
    ReadLogConcat(START, existing, added);
    HeadingSeparates(ReadLog(START, existing), added);
    hide IsAttempt, ReadLog;
  }

  // ---- the appended lines

  lemma NewlineApart(existing: string, added: string)
    ensures CleanLines(WithNewline(existing) + added) == CleanLines(existing) + CleanLines(added)
  {
    hide CleanLines;
    NoLines();
    if existing == "" {
      assert WithNewline(existing) + added == added;
    } else if existing[|existing| - 1] == '\n' {
      var head := existing[..|existing| - 1];
      assert existing == head + ['\n'];
      CleanLinesBreak(head, '\n', added);
      TrailingSpace(head, '\n');
    } else {
      CleanLinesBreak(existing, '\n', added);
      assert existing + "\n" + added == existing + ['\n'] + added;
    }
  }

  function EntryLines(g: Given): seq<string> {
    CleanLines(g.notes) + Line("Outcome", g.outcome) + Line("Next time", g.nextTime)
  }

  function TagsLine(g: Given): string { "Tags: " + Join(", ", ["recipe_attempt"] + g.tags) }

  function BlockLines(g: Given): seq<string> { ["## " + g.stamp, TagsLine(g)] + EntryLines(g) }

  lemma PlainValueLine(name: string, value: string)
    requires Plain(name) && (value == "" || Plain(value))
    ensures CleanParts(Line(name, value)) == Line(name, value)
  {
    if value != "" {
      var line := name + ": " + value;
      assert line[|line| - 1] == value[|value| - 1];
      PlainParts([line]);
    }
  }

  lemma EntryClean(g: Given)
    requires Tidy(g)
    ensures CleanLines(Strip(Entry(g))) == EntryLines(g)
  {
    hide CleanLines, Strip, Join, Line, NoteLine, TagText;
    var a, o, n := [Strip(g.notes)], Line("Outcome", g.outcome), Line("Next time", g.nextTime);
    CleanStrip(Entry(g));
    JoinedLines(a + o + n);
    CleanPartsConcat(a, o);
    CleanPartsConcat(a + o, n);
    CleanStrip(g.notes);
    OnePart(Strip(g.notes));
    PlainValueLine("Outcome", g.outcome);
    PlainValueLine("Next time", g.nextTime);
  }

  lemma {:induction false} JoinPlain(separator: string, parts: seq<string>)
    requires parts != [] && forall p | p in parts :: p != "" && Trimmed(p)
    ensures Join(separator, parts) != "" && Trimmed(Join(separator, parts))
  {
    assert parts[0] in parts;
    if |parts| > 1 {
      var rest := Join(separator, parts[1..]);
      assert forall p | p in parts[1..] :: p in parts;
      JoinPlain(separator, parts[1..]);
      var joined := parts[0] + separator + rest;
      assert joined[0] == parts[0][0] && joined[|joined| - 1] == rest[|rest| - 1];
    }
  }

  lemma OwnTag()
    ensures TagText("recipe_attempt") && Lower("recipe_attempt") == "recipe_attempt" && OneLine(", ")
  {
  }

  lemma TagsPlain(g: Given)
    requires Tidy(g)
    ensures Plain(TagsLine(g))
  {
    hide NoteLine, CleanLines;
    OwnTag();
    var tags := ["recipe_attempt"] + g.tags;
    assert forall t | t in tags :: t == "recipe_attempt" || t in g.tags;
    JoinPlain(", ", tags);
    JoinOneLine(", ", tags);
    var joined := Join(", ", tags);
    hide Join;
    assert TagsLine(g)[|joined| + 5] == joined[|joined| - 1];
  }

  lemma BlockClean(g: Given)
    requires Tidy(g)
    ensures CleanLines(Block(g.stamp, ["recipe_attempt"] + g.tags, Entry(g))) == BlockLines(g)
  {
    EntryClean(g);
    TagsPlain(g);
    StampPlain(g.stamp);
    hide CleanLines, Strip, Join, Entry, EntryLines, Legible, Plain, CleanParts;
    var head, entry := ["## " + g.stamp, TagsLine(g)], Strip(Entry(g));
    assert ["## " + g.stamp] + ["Tags: " + Join(", ", ["recipe_attempt"] + g.tags)] == head;
    hide TagsLine;
    TextClean(head, entry);
  }

  lemma TextClean(head: seq<string>, entry: string)
    requires forall h | h in head :: Plain(h)
    ensures CleanLines(Join("\n", head + [entry]) + "\n\n") == head + CleanLines(entry)
  {
    hide CleanLines, Join, Plain, CleanParts;
    var text := Join("\n", head + [entry]);
    JoinedLines(head + [entry]);
    CleanPartsConcat(head, [entry]);
    PlainParts(head);
    OnePart(entry);
    TrailingSpace(text, '\n');
    TrailingSpace(text + ['\n'], '\n');
    assert text + "\n\n" == text + ['\n'] + ['\n'];
  }

  lemma StampPlain(stamp: string)
    requires Plain(stamp)
    ensures Plain("## " + stamp) && SectionHeading("## " + stamp) == Some(stamp)
  {
    var line := "## " + stamp;
    assert line[|line| - 1] == stamp[|stamp| - 1];
    assert line[2..] == " " + stamp;
    LStripAll(stamp, ' ');
    assert [' '] + stamp == " " + stamp;
    TrimmedStrip(stamp);
  }

  // ---- reading the appended lines

  lemma {:induction false} SplitNone(a: string, c: char)
    requires c !in a
    ensures Split(a, c) == [a]
  {
    if a != "" {
      assert a[0] in a;
      SplitNone(a[1..], c);
      assert [a[0]] + a[1..] == a && [a[1..]][1..] == [];
    }
  }

  lemma {:induction false} SplitAt(a: string, c: char, b: string)
    requires c !in a
    ensures Split(a + [c] + b, c) == [a] + Split(b, c)
  {
    var s := a + [c] + b;
    if a == "" {
      assert s[1..] == b;
    } else {
      assert a[0] in a && s[0] == a[0] && s[1..] == a[1..] + [c] + b;
      SplitAt(a[1..], c, b);
      assert [a[0]] + a[1..] == a && ([a[1..]] + Split(b, c))[1..] == Split(b, c);
    }
  }

  /** Tags without commas are the parts between the commas. */
  lemma {:induction false} TagsBack(tags: seq<string>)
    requires tags != [] && forall t | t in tags :: TagText(t)
    ensures Clean(Split(" " + Join(", ", tags), ',')) == tags
  {
    var first := " " + tags[0];
    assert tags[0] in tags;
    LStripAll(tags[0], ' ');
    assert [' '] + tags[0] == first;
    TrimmedStrip(tags[0]);
    CleanOne(first);
    hide Clean, Strip, Split, Plain;
    if |tags| == 1 {
      SplitNone(first, ',');
      assert tags == [tags[0]];
    } else {
      var rest := " " + Join(", ", tags[1..]);
      assert " " + Join(", ", tags) == first + [','] + rest;
      SplitAt(first, ',', rest);
      TagsBack(tags[1..]);
      CleanConcat([first], Split(rest, ','));
      assert tags == [tags[0]] + tags[1..];
    }
  }

  function Fresh(g: Given): Attempt { Attempt(g.stamp, [], [], None, None) }

  lemma TagsSet(log: Log, tags: seq<string>)
    requires log.current.Some? && tags != [] && forall t | t in tags :: TagText(t)
    ensures LogStep(log, "Tags: " + Join(", ", tags)) == log.(current := Some(log.current.value.(tags := tags)))
  {
    hide Split, Clean, Join, TagText, Lower, StartsWith, SectionHeading;
    TagsBack(tags);
    TagsPrefix(Join(", ", tags));
    assert ("Tags: " + Join(", ", tags))[5..] == " " + Join(", ", tags);
  }

  lemma TagsStep(g: Given)
    requires Tidy(g)
    ensures LogStep(Log([], Some(Fresh(g))), TagsLine(g))
      == Log([], Some(Fresh(g).(tags := ["recipe_attempt"] + g.tags)))
  {
    hide TagText, LogStep;
    var tags := ["recipe_attempt"] + g.tags;
    OwnTag();
    assert forall t | t in tags :: t == "recipe_attempt" || t in g.tags;
    TagsSet(Log([], Some(Fresh(g))), tags);
  }

  lemma TagsPrefix(joined: string)
    ensures StartsWith("Tags: " + joined, "tags:") && SectionHeading("Tags: " + joined).None?
  {
    var line := "Tags: " + joined;
    assert Lower(line)[..5] == "tags:";
  }

  lemma OutcomePrefix(value: string)
    ensures
      var line := "Outcome: " + value;
      && StartsWith(line, "outcome:") && !StartsWith(line, "tags:") && SectionHeading(line).None?
  {
    var line := "Outcome: " + value;
    assert Lower(line)[..8] == "outcome:";
    assert Lower(line)[0] == 'o';
  }

  lemma NextPrefix(value: string)
    ensures
      var line := "Next time: " + value;
      && StartsWith(line, "next time:") && !StartsWith(line, "tags:") && !StartsWith(line, "outcome:")
      && SectionHeading(line).None?
  {
    var line := "Next time: " + value;
    assert Lower(line)[..10] == "next time:";
    assert Lower(line)[0] == 'n';
  }

  lemma {:induction false} NotesRead(a: Attempt, lines: seq<string>)
    requires forall l | l in lines :: Plain(l) && NoteLine(l)
    ensures ReadLog(Log([], Some(a)), lines) == Log([], Some(a.(notes := a.notes + lines)))
  {
    hide NoteLine;
    if lines == [] {
      assert a.notes + lines == a.notes;
    } else {
      var n := |lines| - 1;
      assert lines[n] in lines;
      NotesRead(a, lines[..n]);
      TrimmedStrip(lines[n]);
      NoteStep(a.(notes := a.notes + lines[..n]), lines[n]);
      assert a.notes + lines == a.notes + lines[..n] + [lines[n]];
    }
  }

  lemma NoteStep(a: Attempt, line: string)
    requires NoteLine(line) && line != ""
    ensures LogStep(Log([], Some(a)), line) == Log([], Some(a.(notes := a.notes + [line])))
  {
    hide SectionHeading, StartsWith;
  }

  lemma OutcomeRead(a: Attempt, value: string)
    requires value == "" || Plain(value)
    ensures ReadLog(Log([], Some(a)), Line("Outcome", value))
      == Log([], Some(if value == "" then a else a.(outcome := Some(value))))
  {
    hide Strip, SectionHeading, StartsWith, Plain;
    if value != "" {
      var line := "Outcome: " + value;
      assert "Outcome" + ": " + value == line;
      ReadOneLine(Log([], Some(a)), line);
      OutcomePrefix(value);
      ValueLine(line, 8, value);
    }
  }

  lemma NextRead(a: Attempt, value: string)
    requires value == "" || Plain(value)
    ensures ReadLog(Log([], Some(a)), Line("Next time", value))
      == Log([], Some(if value == "" then a else a.(nextTime := Some(value))))
  {
    hide Strip, SectionHeading, StartsWith, Plain;
    if value != "" {
      var line := "Next time: " + value;
      assert "Next time" + ": " + value == line;
      ReadOneLine(Log([], Some(a)), line);
      NextPrefix(value);
      ValueLine(line, 10, value);
    }
  }

  lemma ValueLine(line: string, at: nat, value: string)
    requires Plain(value) && at < |line| && !Space(line[0]) && line[at..] == " " + value
    ensures Strip(line) == line && Strip(line[at..]) == value
  {
    assert line[|line| - 1] == line[at..][|value|];
    TrimmedStrip(line);
    LStripAll(value, ' ');
    assert [' '] + value == " " + value;
    TrimmedStrip(value);
  }

  /** The attempt behind its heading and its tags. */
  function Tagged(g: Given): Attempt { Fresh(g).(tags := ["recipe_attempt"] + g.tags) }

  lemma HeadRead(g: Given)
    requires Tidy(g)
    ensures ReadLog(START, ["## " + g.stamp, TagsLine(g)]) == Log([], Some(Tagged(g)))
  {
    StampPlain(g.stamp);
    TagsPlain(g);
    TagsStep(g);
    assert "## " + g.stamp != "" && TagsLine(g) != "";
    TrimmedStrip("## " + g.stamp);
    TrimmedStrip(TagsLine(g));
    hide LogStep, ReadLog, CleanLines, Strip, NoteLine, TagsLine, Plain;
    HeadingStep(START, "## " + g.stamp, g.stamp);
    assert ["## " + g.stamp, TagsLine(g)] == ["## " + g.stamp] + [TagsLine(g)];
    ReadLogConcat(START, ["## " + g.stamp], [TagsLine(g)]);
    ReadOneLine(START, "## " + g.stamp);
    ReadOneLine(Log([], Some(Fresh(g))), TagsLine(g));
  }

  lemma BlockRead(g: Given)
    requires Legible(g)
    ensures ReadLog(START, BlockLines(g)) == Log([], Some(Meant(g)))
  {
    HeadRead(g);
    EntryRead(g, Tagged(g));
    hide ReadLog, EntryLines, TagsLine, Legible;
    ReadLogConcat(START, ["## " + g.stamp, TagsLine(g)], EntryLines(g));
  }

  lemma HeadingStep(log: Log, line: string, heading: string)
    requires SectionHeading(line) == Some(heading)
    ensures LogStep(log, line) == Log(Close(log), Some(Attempt(heading, [], [], None, None)))
  {
  }

  lemma EntryRead(g: Given, a: Attempt)
    requires Legible(g) && a == Tagged(g)
    ensures ReadLog(Log([], Some(a)), EntryLines(g)) == Log([], Some(Meant(g)))
  {
    CleanLinesPlain(g.notes);
    hide ReadLog, CleanLines, Line, NoteLine, Plain, TagText;
    var o, n := Line("Outcome", g.outcome), Line("Next time", g.nextTime);
    ReadLogConcat(Log([], Some(a)), CleanLines(g.notes), o);
    ReadLogConcat(Log([], Some(a)), CleanLines(g.notes) + o, n);
    NotesRead(a, CleanLines(g.notes));
    assert [] + CleanLines(g.notes) == CleanLines(g.notes);
    var noted := a.(notes := CleanLines(g.notes));
    OutcomeRead(noted, g.outcome);
    NextRead(if g.outcome == "" then noted else noted.(outcome := Some(g.outcome)), g.nextTime);
  }

  /** The record of an attempt as it was given. */
  function RecordOf(g: Given): Recorded {
    Recorded(g.stamp, ["recipe_attempt"] + g.tags, Join("\n", CleanLines(g.notes)), Optional(g.outcome),
             Optional(g.nextTime))
  }

  lemma MeantFinalized(g: Given)
    ensures Finalized(Meant(g)) == RecordOf(g) && IsAttempt(Meant(g))
  {
    CleanLinesPlain(g.notes);
    var lines := CleanLines(g.notes);
    assert forall l | l in lines :: l != "" && Trimmed(l);
    hide Plain, CleanLines;
    if lines != [] { JoinPlain("\n", lines); }
    TrimmedStrip(Join("\n", lines));
    OwnTag();
    assert "recipe_attempt" in Meant(g).tags;
    hide Lower;
  }

  lemma AppendedClean(existing: string, g: Given)
    requires Tidy(g)
    ensures CleanLines(Appended(existing, g)) == CleanLines(existing) + BlockLines(g)
  {
    BlockClean(g);
    hide CleanLines, Block, BlockLines, Legible, WithNewline;
    NewlineApart(existing, Block(g.stamp, ["recipe_attempt"] + g.tags, Entry(g)));
  }

  lemma BlockHeading(g: Given)
    requires Tidy(g)
    ensures BlockLines(g) != [] && SectionHeading(Strip(BlockLines(g)[0])).Some?
  {
    StampPlain(g.stamp);
    TrimmedStrip("## " + g.stamp);
    hide EntryLines, TagsLine, Strip, SectionHeading;
  }

  lemma AttemptsClean(body: string)
    ensures Attempts(body) == AllFinalized(Close(ReadLog(START, CleanLines(body))))
  {
    hide ReadLog, SplitLines, Clean, IsAttempt;
    ReadClean(START, SplitLines(body));
  }

  lemma BlockClosed(g: Given)
    requires Legible(g)
    ensures Close(ReadLog(START, BlockLines(g))) == [Meant(g)]
  {
    hide ReadLog, BlockLines, IsAttempt, Meant, Legible;
    BlockRead(g);
    MeantFinalized(g);
  }

  /** What an appended block adds to the extraction. */
  lemma BlockAdds(existing: string, g: Given)
    requires Tidy(g)
    ensures Attempts(Appended(existing, g))
      == Attempts(existing) + AllFinalized(Close(ReadLog(START, BlockLines(g))))
  {
    hide Attempts, Appended, BlockLines, Tidy, Strip, SectionHeading, ReadLog, CleanLines, Finalized, Close;
    AttemptsClean(existing);
    AttemptsClean(Appended(existing, g));
    AppendedClean(existing, g);
    BlockHeading(g);
    Homomorphism(CleanLines(existing), BlockLines(g));
  }

  /** Appending an attempt leaves what can be extracted as it was, and adds exactly this attempt. */
  lemma AppendedExtracted(existing: string, g: Given)
    requires Legible(g)
    ensures Attempts(Appended(existing, g)) == Attempts(existing) + [RecordOf(g)]
  {
    assert Tidy(g);
    hide Attempts, Appended, BlockLines, Legible, Tidy, ReadLog, Meant, Finalized, RecordOf, Close, IsAttempt;
    BlockAdds(existing, g);
    BlockClosed(g);
    MeantFinalized(g);
    assert AllFinalized([Meant(g)]) == [Finalized(Meant(g))];
  }

  /** The text after any number of attempts. */
  function AllAppended(existing: string, attempts: seq<Given>): string {
    if attempts == [] then existing
    else Appended(AllAppended(existing, attempts[..|attempts| - 1]), attempts[|attempts| - 1])
  }

  /** However many attempts are appended, each is extracted once, in order. */
  lemma {:induction false} AllExtracted(existing: string, attempts: seq<Given>)
    requires forall g | g in attempts :: Legible(g)
    ensures Attempts(AllAppended(existing, attempts))
      == Attempts(existing) + seq(|attempts|, i requires 0 <= i < |attempts| => RecordOf(attempts[i]))
  {
    hide Attempts, Appended, RecordOf, Legible;
    if attempts != [] {
      var n := |attempts| - 1;
      assert attempts[n] in attempts;
      AllExtracted(existing, attempts[..n]);
      AppendedExtracted(AllAppended(existing, attempts[..n]), attempts[n]);
    }
  }
}
