/** Exactly which notes come back from the attempt log of a recipe. */
module AttemptNotes {
  import opened Prelude
  import opened Text
  import opened Lines
  import opened RecipeAttempts

  /** The characters of the lines, with their line breaks. */
  function Size(lines: seq<string>): nat { if lines == [] then 0 else Size(lines[..|lines| - 1]) + |lines[|lines| - 1]| + 1 }

  /** The lines the reader keeps as notes. */
  function Kept(lines: seq<string>): seq<string> {
    if lines == [] then []
    else
      var last := lines[|lines| - 1];
      Kept(lines[..|lines| - 1]) + if NoteLine(last) then [last] else []
  }

  lemma {:induction false} KeptConcat(a: seq<string>, b: seq<string>)
    ensures Kept(a + b) == Kept(a) + Kept(b)
    decreases |b|
  {
    hide NoteLine;
    if b == [] {
      assert a + b == a;
    } else {
      var n := |b| - 1;
      assert (a + b)[..|a + b| - 1] == a + b[..n];
      KeptConcat(a, b[..n]);
    }
  }

  lemma SizeEnd(lines: seq<string>, line: string)
    ensures Size(lines + [line]) == Size(lines) + |line| + 1
  {
    assert (lines + [line])[..|lines|] == lines;
  }

  lemma {:induction false} KeptSize(lines: seq<string>)
    ensures Size(Kept(lines)) <= Size(lines)
    ensures Size(Kept(lines)) == Size(lines) <==> forall l | l in lines :: NoteLine(l)
  {
    hide NoteLine;
    if lines != [] {
      var n := |lines| - 1;
      KeptSize(lines[..n]);
      SizeEnd(Kept(lines[..n]), lines[n]);
      assert Kept(lines[..n]) + [] == Kept(lines[..n]);
      assert forall l :: l in lines <==> l in lines[..n] || l == lines[n];
    }
  }

  /** The notes of every attempt in the log, together with their line breaks, have at most this size. */
  ghost predicate NotesWithin(log: Log, size: nat) {
    && (forall a | a in log.done :: Size(a.notes) <= size)
    && (log.current.Some? ==> Size(log.current.value.notes) <= size)
  }

  lemma StepWithin(log: Log, line: string, size: nat)
    requires NotesWithin(log, size)
    ensures NotesWithin(LogStep(log, line), size + if NoteLine(line) then |line| + 1 else 0)
  {
    hide IsAttempt, StartsWith, SectionHeading, TagList;
    if log.current.Some? { SizeEnd(log.current.value.notes, line); }
    assert Size([]) == 0;
    hide Size;
  }

  /** No attempt has more notes than the lines that are kept as notes. */
  lemma {:induction false} ReadWithin(lines: seq<string>)
    requires forall l | l in lines :: Trimmed(l)
    ensures NotesWithin(ReadLog(START, lines), Size(Kept(lines)))
  {
    hide LogStep, NoteLine, Strip, Trimmed;
    if lines != [] {
      var n := |lines| - 1;
      assert lines[n] in lines;
      TrimmedStrip(lines[n]);
      ReadWithin(lines[..n]);
      StepWithin(ReadLog(START, lines[..n]), lines[n], Size(Kept(lines[..n])));
      SizeEnd(Kept(lines[..n]), lines[n]);
      assert Kept(lines[..n]) + [] == Kept(lines[..n]);
      hide NotesWithin, Size;
    }
  }

  lemma {:induction false} JoinSize(lines: seq<string>)
    ensures lines != [] ==> |Join("\n", lines)| + 1 == Size(lines)
    ensures lines == [] ==> Join("\n", lines) == ""
    decreases |lines|
  {
    if |lines| == 1 {
      assert lines[..0] == [];
    } else if lines != [] {
      JoinSize(lines[1..]);
      SizeHead(lines);
    }
  }

  lemma {:induction false} SizeHead(lines: seq<string>)
    requires lines != []
    ensures Size(lines) == |lines[0]| + 1 + Size(lines[1..])
    decreases |lines|
  {
    var n := |lines| - 1;
    if n == 0 {
      assert lines[..0] == [];
    } else {
      SizeHead(lines[..n]);
      assert lines[..n][1..] == lines[1..][..n - 1];
    }
  }

  lemma KeptOne(line: string)
    ensures Kept([line]) == if NoteLine(line) then [line] else []
  {
    assert [line][..0] == [];
  }

  lemma DirectingLines(g: Given)
    requires Tidy(g)
    ensures Kept(["## " + g.stamp, TagsLine(g)]) == []
    ensures Kept(Line("Outcome", g.outcome)) == [] && Kept(Line("Next time", g.nextTime)) == []
  {
    StampPlain(g.stamp);
    TagsPrefix(Join(", ", ["recipe_attempt"] + g.tags));
    OutcomePrefix(g.outcome);
    NextPrefix(g.nextTime);
    var heading, tags := "## " + g.stamp, TagsLine(g);
    var outcome, next := "Outcome: " + g.outcome, "Next time: " + g.nextTime;
    assert !NoteLine(heading) && !NoteLine(tags) && !NoteLine(outcome) && !NoteLine(next);
    hide NoteLine, TagsLine, Plain, SectionHeading, StartsWith;
    KeptOne(heading);
    KeptOne(tags);
    KeptConcat([heading], [tags]);
    assert [heading] + [tags] == [heading, tags];
    assert "Outcome" + ": " + g.outcome == outcome && "Next time" + ": " + g.nextTime == next;
    KeptOne(outcome);
    KeptOne(next);
  }

  /** Of an appended block, only the notes given are kept as notes. */
  lemma BlockKept(g: Given)
    requires Tidy(g)
    ensures Kept(BlockLines(g)) == Kept(CleanLines(g.notes))
  {
    DirectingLines(g);
    hide CleanLines, NoteLine, Line, TagsLine, Tidy;
    var head, notes := ["## " + g.stamp, TagsLine(g)], CleanLines(g.notes);
    var o, n := Line("Outcome", g.outcome), Line("Next time", g.nextTime);
    assert BlockLines(g) == head + (notes + o + n);
    KeptConcat(head, notes + o + n);
    KeptConcat(notes + o, n);
    KeptConcat(notes, o);
  }

  lemma BlockTrimmed(g: Given)
    requires Tidy(g)
    ensures forall l | l in BlockLines(g) :: Trimmed(l)
  {
    BlockClean(g);
    CleanLinesPlain(Block(g.stamp, ["recipe_attempt"] + g.tags, Entry(g)));
    hide BlockLines, Block, Entry, CleanLines, Tidy, OneLine, Trimmed;
  }

  lemma NotesShrink(g: Given, a: Attempt)
    requires Tidy(g) && !OnlyNotes(g) && a in Close(ReadLog(START, BlockLines(g)))
    ensures Size(a.notes) < Size(CleanLines(g.notes))
  {
    var notes := CleanLines(g.notes);
    BlockTrimmed(g);
    ReadWithin(BlockLines(g));
    BlockKept(g);
    KeptSize(notes);
    var l :| l in notes && !NoteLine(l);
    hide ReadLog, BlockLines, CleanLines, NoteLine, IsAttempt, Kept, Tidy, Size;
  }

  lemma ShorterText(fewer: seq<string>, lines: seq<string>)
    requires Size(fewer) < Size(lines) && forall l | l in lines :: l != ""
    ensures |Strip(Join("\n", fewer))| < |Join("\n", lines)|
  {
    JoinSize(fewer);
    JoinSize(lines);
    StripShorter(Join("\n", fewer));
    hide Strip, Join;
    LongLines(lines);
  }

  /** An attempt read from a block whose notes are not all notes has shorter notes than were given. */
  lemma ShorterNotes(g: Given, a: Attempt)
    requires Tidy(g) && !OnlyNotes(g) && a in Close(ReadLog(START, BlockLines(g)))
    ensures Finalized(a) != RecordOf(g)
  {
    CleanLinesPlain(g.notes);
    NotesShrink(g, a);
    hide ReadLog, BlockLines, CleanLines, IsAttempt, Join, Strip, Tidy, Size, Close;
    ShorterText(a.notes, CleanLines(g.notes));
  }

  lemma LongLines(lines: seq<string>)
    requires lines != [] && forall l | l in lines :: l != ""
    ensures Size(lines) >= 2
  {
    assert lines[|lines| - 1] in lines;
  }

  /** An appended attempt is added as it was given exactly when its notes are nothing but notes: no heading, no tags, no
      outcome and no next time. */
  lemma ExtractedExactly(existing: string, g: Given)
    requires Tidy(g)
    ensures Attempts(Appended(existing, g)) == Attempts(existing) + [RecordOf(g)] <==> OnlyNotes(g)
  {
    hide Attempts, Appended, BlockLines, Tidy, ReadLog, Close, OnlyNotes, RecordOf, Finalized;
    if OnlyNotes(g) {
      AppendedExtracted(existing, g);
    } else {
      BlockAdds(existing, g);
      var added := Close(ReadLog(START, BlockLines(g)));
      if Attempts(existing) + AllFinalized(added) == Attempts(existing) + [RecordOf(g)] {
        assert AllFinalized(added) == (Attempts(existing) + AllFinalized(added))[|Attempts(existing)|..] == [RecordOf(g)];
        assert added[0] in added && AllFinalized(added)[0] == Finalized(added[0]);
        ShorterNotes(g, added[0]);
      }
    }
  }

  /** Notes that hold a tags line take the attempt's own tag away; without an outcome and a next time the whole attempt is
      lost. */
  lemma TagsInNotesLose(existing: string, stamp: string)
    requires Plain(stamp)
    ensures
      var g := Given(stamp, "Tags: crust", "", "", []);
      Tidy(g) && Attempts(Appended(existing, g)) == Attempts(existing)
  {
    var g := Given(stamp, "Tags: crust", "", "", []);
    BlockAdds(existing, g);
    CrustRead(g);
    hide Attempts, Appended, BlockLines, ReadLog, Plain, LogStep, IsAttempt;
    assert AllFinalized([]) == [];
  }

  /** The attempt is lost when its only line of notes makes it none. */
  lemma LostBy(g: Given, line: string)
    requires Tidy(g) && g.outcome == "" && g.nextTime == "" && CleanLines(g.notes) == [line] && Strip(line) == line
    requires Close(LogStep(Log([], Some(Tagged(g))), line)) == []
    ensures Close(ReadLog(START, BlockLines(g))) == []
  {
    HeadRead(g);
    hide LogStep, CleanLines, Strip, TagsLine, Tidy, IsAttempt, ReadLog;
    var head := ["## " + g.stamp, TagsLine(g)];
    assert BlockLines(g) == head + [line];
    ReadLogConcat(START, head, [line]);
    ReadOneLine(Log([], Some(Tagged(g))), line);
  }

  lemma CrustRead(g: Given)
    requires Tidy(g) && g.notes == "Tags: crust" && g.outcome == "" && g.nextTime == "" && g.tags == []
    ensures Close(ReadLog(START, BlockLines(g))) == []
  {
    TagsLineClean();
    CrustStep(Log([], Some(Tagged(g))));
    CrustDropped(g.stamp);
    hide LogStep, CleanLines, Strip, Tidy, IsAttempt, ReadLog, BlockLines;
    LostBy(g, g.notes);
  }

  lemma TagsLineClean()
    ensures CleanLines("Tags: crust") == ["Tags: crust"] && Strip("Tags: crust") == "Tags: crust"
  {
    PlainLine("Tags: crust");
    TrimmedStrip("Tags: crust");
  }

  lemma CrustStep(log: Log)
    requires log.current.Some?
    ensures LogStep(log, "Tags: crust") == log.(current := Some(log.current.value.(tags := ["crust"])))
  {
    assert Plain("crust") && ',' !in "crust";
    hide LogStep;
    TagsSet(log, ["crust"]);
    assert Join(", ", ["crust"]) == "crust" && "Tags: " + "crust" == "Tags: crust";
  }

  lemma CrustDropped(heading: string)
    ensures !IsAttempt(Attempt(heading, ["crust"], [], None, None))
  {
    assert Lower("crust") == "crust" && "crust"[0] != "recipe_attempt"[0];
    hide Lower;
  }
}
