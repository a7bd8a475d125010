/** Reading back a rendered recipe card. */
module RecipeRoundTrip {
  import opened Prelude
  import opened Text
  import opened Lines
  import opened RecipeCard
  import opened RecipeNames

  // ---- only the stripped non-blank lines matter

  /** A state without its notes, and with its items stripped. */
  function Seen(s: State): State {
    s.(ingredients := Clean(s.ingredients), steps := Clean(s.steps), notes := [])
  }

  /** The parser on stripped non-blank lines, notes aside. */
  function Read(s: State, lines: seq<string>): State {
    if lines == [] then s else Seen(Step(Read(s, lines[..|lines| - 1]), lines[|lines| - 1], ""))
  }

  lemma {:induction false} ReadConcat(s: State, a: seq<string>, b: seq<string>)
    ensures Read(s, a + b) == Read(Read(s, a), b)
    decreases |b|
  {
    hide Step, Seen;
    if b == [] {
      assert a + b == a;
    } else {
      assert (a + b)[..|a + b| - 1] == a + b[..|b| - 1];
      ReadConcat(s, a, b[..|b| - 1]);
    }
  }

  lemma {:induction false} CleanTwice(lines: seq<string>)
    ensures Clean(Clean(lines)) == Clean(lines)
  {
    if lines != [] {
      CleanTwice(lines[1..]);
      StripTrims(lines[0]);
      TrimmedStrip(Strip(lines[0]));
      if Strip(lines[0]) != "" {
        assert Clean(lines) == [Strip(lines[0])] + Clean(lines[1..]);
        CleanConcat([Strip(lines[0])], Clean(lines[1..]));
        CleanOne(Strip(lines[0]));
      } else {
        assert Clean(lines) == Clean(lines[1..]);
      }
    }
  }

  lemma CleanAdd(lines: seq<string>, raw: string)
    ensures Clean(lines + [raw]) == Clean(lines) + Clean([raw])
    ensures Clean(Clean(lines) + [Strip(raw)]) == Clean(lines + [raw])
    ensures Clean(Clean(lines) + [raw]) == Clean(lines + [raw])
  {
    CleanConcat(lines, [raw]);
    CleanConcat(Clean(lines), [raw]);
    CleanConcat(Clean(lines), [Strip(raw)]);
    CleanTwice(lines);
    CleanOne(raw);
    CleanOne(Strip(raw));
    StripTrims(raw);
    TrimmedStrip(Strip(raw));
  }

  lemma KeepSeen(s: State, raw: string)
    ensures Seen(Keep(s, raw)) == Seen(Keep(Seen(s), Strip(raw)))
  {
    CleanAdd(s.ingredients, raw);
    CleanAdd(s.steps, raw);
    CleanTwice(s.ingredients);
    CleanTwice(s.steps);
    hide Clean, Strip;
    match s.section {
      case Ingredients =>
      case Steps =>
      case _ =>
    }
  }

  lemma AddStepSeen(s: State, added: seq<string>)
    requires |added| <= 1
    ensures Seen(s.(underHeading := true, steps := s.steps + added))
      == Seen(Seen(s).(underHeading := true, steps := Seen(s).steps + added))
  {
    CleanTwice(s.ingredients);
    CleanTwice(s.steps);
    if added == [] {
      assert s.steps + added == s.steps && Clean(s.steps) + added == Clean(s.steps);
    } else {
      CleanAdd(s.steps, added[0]);
      assert added == [added[0]];
    }
  }

  lemma PlainHeadingSeen(s: State, heading: string)
    ensures PlainHeading(s, heading).Some? == PlainHeading(Seen(s), heading).Some?
    ensures PlainHeading(s, heading).Some? ==>
      Seen(PlainHeading(s, heading).value) == Seen(PlainHeading(Seen(s), heading).value)
  {
    hide DropNumber;
    SeenTwice(s);
    AddStepSeen(s, if DropNumber(heading) == "" then [] else [DropNumber(heading)]);
    hide Clean;
  }

  lemma SeenTwice(s: State)
    ensures Seen(Seen(s)) == Seen(s)
  {
    CleanTwice(s.ingredients);
    CleanTwice(s.steps);
  }

  lemma EnterSeen(s: State, section: Section)
    ensures Seen(Enter(s, section)) == Enter(Seen(s), section) == Seen(Enter(Seen(s), section))
  {
    SeenTwice(s);
  }

  lemma TextSeen(s: State, raw: string)
    ensures Seen(TextStep(s, raw, Strip(raw))) == Seen(TextStep(Seen(s), Strip(raw), Strip(raw)))
  {
    hide Opens, Sets, Strip, Colon, Named;
    var line := Strip(raw);
    SeenTwice(s);
    KeepSeen(s, raw);
    if Opens(line).Some? { EnterSeen(s, Opens(line).value); }
  }

  predicate TitleHeading(line: string) { Heading(line).Some? && Named(Heading(line).value).None? }

  /** One line read with its spaces, or without them. */
  lemma StepSeen(s: State, raw: string, first: string)
    requires s.title.Some? || Strip(raw) == "" || TitleHeading(Strip(raw))
    ensures Strip(raw) == "" ==> Seen(Step(s, raw, first)) == Seen(s)
    ensures Strip(raw) != "" ==> Seen(Step(s, raw, first)) == Seen(Step(Seen(s), Strip(raw), ""))
    ensures s.title.Some? || Strip(raw) != "" ==> Step(s, raw, first).title.Some?
  {
    hide Named, Heading, Strip, TextStep, PlainHeading, Seen;
    var line := Strip(raw);
    StripTrims(raw);
    TrimmedStrip(line);
    SameParts(s);
    if line == "" {
      BlankSeen(s);
    } else if Heading(line).Some? && Named(Heading(line).value).Some? {
      EnterSeen(s, Named(Heading(line).value).value);
    } else if Heading(line).Some? && PlainHeading(s, Heading(line).value).Some? {
      PlainHeadingSeen(s, Heading(line).value);
      PlainHeadingTitle(s, Heading(line).value);
    } else {
      if Heading(line).Some? {
        PlainHeadingSeen(s, Heading(line).value);
        PlainHeadingTitle(s, Heading(line).value);
      }
      TextSeen(s, raw);
      TextTitle(s, raw, line);
    }
  }

  lemma SameParts(s: State)
    ensures Seen(s).title == s.title && Seen(s).section == s.section
  {
  }

  lemma BlankSeen(s: State)
    ensures Seen(s.(notes := s.notes + [""])) == Seen(s)
  {
  }

  lemma TextTitle(s: State, raw: string, line: string)
    ensures TextStep(s, raw, line).title == s.title
  {
  }

  lemma PlainHeadingTitle(s: State, heading: string)
    ensures s.title.None? ==> PlainHeading(s, heading).Some?
    ensures PlainHeading(s, heading).Some? ==> PlainHeading(s, heading).value.title.Some?
  {
  }

  /** The parser sees of the lines only what is left of them when they are stripped and blank ones dropped. */
  lemma {:induction false} LinesSeen(s: State, lines: seq<string>, first: string)
    requires s.title.Some? || Clean(lines) == [] || TitleHeading(Clean(lines)[0])
    ensures Seen(After(s, lines, first)) == Read(Seen(s), Clean(lines))
    ensures s.title.Some? || Clean(lines) != [] ==> After(s, lines, first).title.Some?
    decreases |lines|
  {
    hide Step, TitleHeading, Strip, Seen;
    if lines == [] {
      assert Clean(lines) == [];
    } else {
      var n := |lines| - 1;
      var before, raw := After(s, lines[..n], first), lines[n];
      assert lines == lines[..n] + [raw];
      CleanConcat(lines[..n], [raw]);
      CleanOne(raw);
      LinesSeen(s, lines[..n], first);
      StepSeen(before, raw, first);
      if Strip(raw) != "" {
        var cleaned := Clean(lines[..n]);
        assert Clean(lines) == cleaned + [Strip(raw)];
        assert (cleaned + [Strip(raw)])[..|cleaned|] == cleaned;
      } else {
        assert Clean(lines) == Clean(lines[..n]);
      }
    }
  }

  lemma {:induction false} ItemsConcat(a: seq<string>, b: seq<string>)
    ensures Items(a + b) == Items(a) + Items(b)
    decreases |b|
  {
    hide Item;
    if b == [] {
      assert a + b == a;
    } else {
      assert (a + b)[..|a + b| - 1] == a + b[..|b| - 1];
      ItemsConcat(a, b[..|b| - 1]);
    }
  }

  lemma ItemsOne(raw: string)
    ensures Items([raw]) == if Item(raw) == "" then [] else [Item(raw)]
  {
    assert [raw][..0] == [];
  }

  lemma {:induction false} ItemsClean(lines: seq<string>)
    ensures Items(lines) == Items(Clean(lines))
  {
    if lines != [] {
      var raw := lines[0];
      assert lines == [raw] + lines[1..];
      ItemsConcat([raw], lines[1..]);
      ItemsConcat(Clean([raw]), Clean(lines[1..]));
      CleanOne(raw);
      ItemsClean(lines[1..]);
      StripTrims(raw);
      TrimmedStrip(Strip(raw));
      ItemsOne(raw);
      ItemsOne(Strip(raw));
    }
  }

  lemma {:induction false} CleanRStripped(lines: seq<string>)
    ensures Clean(RStripped(lines)) == Clean(lines)
  {
    if lines != [] {
      assert RStripped(lines)[1..] == RStripped(lines[1..]);
      CleanRStripped(lines[1..]);
      RStripTwice(lines[0]);
    }
  }

  lemma {:induction false} RStripTwice(s: string)
    ensures RStrip(RStrip(s)) == RStrip(s)
  {
    if s != "" && Space(s[|s| - 1]) { RStripTwice(s[..|s| - 1]); }
  }

  /** The extracted lists and fields are those the parser collects from the clean lines. */
  lemma ExtractReads(text: string, title: Option<string>, query: string)
    requires CleanLines(text) != [] && TitleHeading(CleanLines(text)[0])
    ensures
      var s, r := Read(Start(title), CleanLines(text)), Extract(text, title, query);
      r.ingredients == Items(s.ingredients) && r.steps == StepItems(s.steps) && r.fields == s.fields
  {
    hide Step, TitleHeading, NoteText, Item;
    var lines := RStripped(SplitLines(text));
    CleanRStripped(SplitLines(text));
    LinesSeen(Start(title), lines, lines[0]);
    assert Seen(Start(title)) == Start(title);
    var t := After(Start(title), lines, lines[0]);
    ItemsClean(t.ingredients);
    ItemsClean(t.steps);
    CleanTwice(t.steps);
  }
}
