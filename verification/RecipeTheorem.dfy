/** A rendered recipe card is read back exactly, unless its source section is taken for something else. */
module RecipeTheorem {
  import opened Prelude
  import opened Text
  import opened Lines
  import opened Decimal
  import opened RecipeCard
  import opened RecipeNames
  import opened RecipeRoundTrip

  /** Nothing in the card would be taken for a direction to the parser. */
  predicate Readable(c: Card) {
    && Plain(c.title) && Neutral("# " + c.title)
    && (forall l | l in CleanLines(Strip(c.summary)) :: Neutral(l))
    && (forall v | v in [c.servings, c.prepTime, c.cookTime, c.totalTime] :: v == "" || Plain(v))
    && (forall t | t in c.tags :: OneLine(t))
    && (forall x | x in c.ingredients :: Plain(x) && Neutral("- " + x))
    && (forall x | x in c.steps :: Plain(x))
    && (forall l | l in CleanLines(Strip(c.notes)) :: Neutral(l))
    && (forall l | l in CleanLines(c.source) :: Neutral(Bullet(l)))
  }

  function Given(value: string): Option<string> { if value == "" then None else Some(value) }

  function FieldsOf(c: Card): Fields {
    Fields(Given(c.servings), Given(c.prepTime), Given(c.cookTime), Given(c.totalTime))
  }

  /** The source section is absent, or follows notes, or has nothing to add to the ingredients it follows. */
  predicate SourceKept(c: Card) {
    || c.source == "" || c.notes != ""
    || (c.steps == [] && (c.ingredients == [] || Items(Bullets(CleanLines(c.source))) == []))
  }

  /** A line of its own section: plain, and no direction. */
  predicate Quiet(line: string) { Plain(line) && Neutral(line) }

  predicate AllQuiet(lines: seq<string>) { forall l | l in lines :: Quiet(l) }

  predicate Dashed(line: string) { Quiet(line) && line[0] != '#' }

  predicate AllDashed(lines: seq<string>) { forall l | l in lines :: Dashed(l) }

  // ---- one section after the other

  lemma ReadOne(s: State, line: string)
    ensures Read(s, [line]) == Seen(Step(s, line, ""))
  {
    assert [line][..0] == [];
  }

  lemma ReadLast(s: State, lines: seq<string>)
    requires lines != []
    ensures Read(s, lines) == Seen(Step(Read(s, lines[..|lines| - 1]), lines[|lines| - 1], ""))
  {
  }

  lemma NoteLine(s: State, line: string)
    requires Seen(s) == s && s.title.Some? && s.section.Notes? && Quiet(line)
    ensures Seen(Step(s, line, "")) == s
  {
    hide Heading, Named, Opens, Sets, Strip, Clean;
    TrimmedStrip(line);
  }

  lemma {:induction false} NoteLines(s: State, lines: seq<string>)
    requires Seen(s) == s && s.title.Some? && s.section.Notes? && AllQuiet(lines)
    ensures Read(s, lines) == s
  {
    hide Step, Seen, Quiet;
    if lines != [] {
      NoteLines(s, lines[..|lines| - 1]);
      ReadLast(s, lines);
      NoteLine(s, lines[|lines| - 1]);
    }
  }

  lemma IngredientLine(s: State, line: string)
    requires Seen(s) == s && s.section.Ingredients? && s.title.Some? && Dashed(line)
    ensures Seen(Step(s, line, "")) == s.(ingredients := s.ingredients + [line])
    ensures Seen(s.(ingredients := s.ingredients + [line])) == s.(ingredients := s.ingredients + [line])
  {
    hide Heading, Named, Opens, Sets, Strip, Clean;
    TrimmedStrip(line);
    NoHeading(line);
    CleanAdd(s.ingredients, line);
    CleanOne(line);
  }

  lemma {:induction false} IngredientLines(s: State, lines: seq<string>)
    requires Seen(s) == s && s.section.Ingredients? && s.title.Some? && AllDashed(lines)
    ensures Read(s, lines) == s.(ingredients := s.ingredients + lines)
    ensures Seen(Read(s, lines)) == Read(s, lines)
  {
    hide Step, Seen, Dashed;
    if lines == [] {
      assert s.ingredients + lines == s.ingredients;
    } else {
      var n := |lines| - 1;
      IngredientLines(s, lines[..n]);
      ReadLast(s, lines);
      var before := Read(s, lines[..n]);
      IngredientLine(before, lines[n]);
      assert s.ingredients + lines == before.ingredients + [lines[n]];
    }
  }

  lemma StepLine(s: State, line: string)
    requires Seen(s) == s && s.section.Steps? && s.title.Some? && !s.underHeading && Dashed(line)
    ensures Seen(Step(s, line, "")) == s.(steps := s.steps + [line])
    ensures Seen(s.(steps := s.steps + [line])) == s.(steps := s.steps + [line])
  {
    hide Heading, Named, Opens, Sets, Strip, Clean;
    TrimmedStrip(line);
    NoHeading(line);
    CleanAdd(s.steps, line);
    CleanOne(line);
  }

  lemma {:induction false} StepLines(s: State, lines: seq<string>)
    requires Seen(s) == s && s.section.Steps? && s.title.Some? && !s.underHeading && AllDashed(lines)
    ensures Read(s, lines) == s.(steps := s.steps + lines)
    ensures Seen(Read(s, lines)) == Read(s, lines)
  {
    hide Step, Seen, Dashed;
    if lines == [] {
      assert s.steps + lines == s.steps;
    } else {
      var n := |lines| - 1;
      StepLines(s, lines[..n]);
      ReadLast(s, lines);
      var before := Read(s, lines[..n]);
      StepLine(before, lines[n]);
      assert s.steps + lines == before.steps + [lines[n]];
    }
  }

  lemma {:induction false} HiddenLines(s: State, lines: seq<string>)
    requires Seen(s) == s && s.section.Steps? && s.title.Some? && s.underHeading && AllDashed(lines)
    ensures Read(s, lines) == s
  {
    hide Seen;
    if lines != [] {
      HiddenLines(s, lines[..|lines| - 1]);
      ReadLast(s, lines);
      HiddenLine(s, lines[|lines| - 1]);
    }
  }

  lemma HiddenLine(s: State, line: string)
    requires s.section.Steps? && s.title.Some? && s.underHeading && Dashed(line)
    ensures Step(s, line, "") == s
  {
    TrimmedStrip(line);
    NoHeading(line);
    hide Heading, Named, Opens, Sets, Strip;
  }

  lemma OpenSection(s: State, name: string, section: Section)
    requires Seen(s) == s && Named(name) == Some(section) && Plain(name)
    ensures Read(s, ["## " + name]) == Enter(s, section) == Seen(Enter(s, section))
  {
    hide Heading, Named, Strip, Seen, Enter, PlainHeading, TextStep, Read;
    var line := "## " + name;
    assert "##" + " " + name == line;
    HeadingOf("##", name);
    assert line[|name| + 2] == name[|name| - 1];
    TrimmedStrip(line);
    EnterSeen(s, section);
    ReadOne(s, line);
  }

  /** What the parser makes of the source heading. */
  function SourceOpened(s: State): State {
    if s.section.Steps? then s.(underHeading := true, steps := s.steps + ["Source"]) else s
  }

  lemma SourceHeading(s: State)
    requires Seen(s) == s && s.title.Some? && ListSection(s.section)
    ensures Read(s, ["## Source"]) == SourceOpened(s) == Seen(SourceOpened(s))
  {
    hide Heading, Named, Strip, Opens, Sets, Clean, DropNumber, Seen, TextStep, Quiet;
    var line := "## Source";
    SourceLine();
    ReadOne(s, line);
    if s.section.Notes? {
      NoteLine(s, line);
    } else if s.section.Steps? {
      SourceStep(s);
    }
  }

  lemma SourceStep(s: State)
    requires Seen(s) == s
    ensures Seen(s.(underHeading := true, steps := s.steps + ["Source"]))
      == s.(underHeading := true, steps := s.steps + ["Source"])
  {
    CleanAdd(s.steps, "Source");
    CleanOne("Source");
    TrimmedStrip("Source");
    hide Clean, Strip;
  }

  lemma SourceLine()
    ensures Heading("## Source") == Some("Source") && Named("Source").None? && Quiet("## Source")
    ensures DropNumber("Source") == "Source" && Strip("## Source") == "## Source"
  {
    hide Named, Plain, DropNumber, Opens, Sets, Heading, Strip;
    assert "##" + " " + "Source" == "## Source";
    HeadingOf("##", "Source");
    RenderedNames();
    SourceUndirected();
    SourcePlain();
  }

  lemma SourcePlain()
    ensures Plain("## Source") && Strip("## Source") == "## Source" && DropNumber("Source") == "Source"
  {
    TrimmedStrip("## Source");
    assert DigitsEnd("Source", 0) == 0;
  }

  lemma Undirected(line: string)
    requires forall k | 0 <= k < |line| :: line[k] != ':'
    ensures Opens(line).None? && Sets(line).None?
  {
    hide Named;
    NoColon(line);
  }

  lemma SourceUndirected()
    ensures Opens("## Source").None? && Sets("## Source").None?
  {
    hide Opens, Sets;
    Undirected("## Source");
  }

  /** The source section as it is read in each section. */
  lemma SourceSection(s: State, bullets: seq<string>)
    requires Seen(s) == s && s.title.Some? && ListSection(s.section) && AllDashed(bullets)
    requires s.section.Steps? ==> !s.underHeading
    ensures
      Read(s, ["## Source"] + bullets) == match s.section
        case Ingredients => s.(ingredients := s.ingredients + bullets)
        case Steps => s.(underHeading := true, steps := s.steps + ["Source"])
        case _ => s
  {
    hide Dashed, Seen, Read;
    SourceHeading(s);
    ReadConcat(s, ["## Source"], bullets);
    match s.section {
      case Ingredients => IngredientLines(s, bullets);
      case Steps => HiddenLines(SourceOpened(s), bullets);
      case Notes => NoteLines(s, bullets) by { DashedQuiet(bullets); }
    }
  }

  lemma DashedQuiet(lines: seq<string>)
    requires AllDashed(lines)
    ensures AllQuiet(lines)
  {
  }

  // ---- the clean lines of a card

  lemma DashPlain(item: string)
    requires Plain(item)
    ensures Plain("- " + item)
  {
    assert ("- " + item)[|item| + 1] == item[|item| - 1];
  }

  lemma {:induction false} BulletedAll(items: seq<string>)
    requires forall i | 0 <= i < |items| :: Plain(items[i])
    ensures Bulleted(items) == seq(|items|, i requires 0 <= i < |items| => "- " + items[i])
  {
    if items != [] {
      var n := |items| - 1;
      TrimmedStrip(items[n]);
      BulletedAll(items[..n]);
      hide Plain, Strip;
      assert Bulleted(items) == Bulleted(items[..n]) + ["- " + items[n]];
    }
  }

  lemma BulletedDashed(items: seq<string>)
    requires forall x | x in items :: Plain(x) && Neutral("- " + x)
    ensures AllDashed(Bulleted(items)) && |Bulleted(items)| == |items|
    ensures forall i | 0 <= i < |items| :: Bulleted(items)[i] == "- " + items[i]
  {
    hide Neutral, Plain, Bulleted;
    assert forall i | 0 <= i < |items| :: items[i] in items;
    BulletedAll(items);
    forall i | 0 <= i < |items| ensures Dashed("- " + items[i]) {
      DashPlain(items[i]);
    }
  }

  lemma {:induction false} NumberedAll(steps: seq<string>)
    requires forall i | 0 <= i < |steps| :: Plain(steps[i])
    ensures Numbered(steps) == seq(|steps|, i requires 0 <= i < |steps| => Digits(i + 1) + ". " + steps[i])
  {
    hide Digits;
    if steps != [] {
      var n := |steps| - 1;
      TrimmedStrip(steps[n]);
      NumberedAll(steps[..n]);
      hide Plain, Strip;
      assert Numbered(steps) == Numbered(steps[..n]) + [Digits(n + 1) + ". " + steps[n]];
    }
  }

  lemma NumberedDashed(steps: seq<string>)
    requires forall x | x in steps :: Plain(x)
    ensures AllDashed(Numbered(steps)) && |Numbered(steps)| == |steps|
    ensures forall i | 0 <= i < |steps| :: Numbered(steps)[i] == Digits(i + 1) + ". " + steps[i]
  {
    hide Plain, Digits, Numbered, Dashed;
    assert forall i | 0 <= i < |steps| :: steps[i] in steps;
    NumberedAll(steps);
    forall i | 0 <= i < |steps| ensures Dashed(Digits(i + 1) + ". " + steps[i]) {
      NumberedLine(i + 1, steps[i]);
    }
  }

  lemma NumberedLine(n: nat, step: string)
    requires Plain(step)
    ensures Dashed(Digits(n) + ". " + step)
  {
    hide Digits, Neutral;
    var line := Digits(n) + ". " + step;
    assert line[|line| - 1] == step[|step| - 1];
    assert line[0] == Digits(n)[0];
    assert OneLine(Digits(n));
    OneLineParts(Digits(n) + ". ", step);
    DigitLine(line);
  }

  lemma BulletsDashed(lines: seq<string>)
    requires forall l | l in lines :: Plain(l) && Neutral(Bullet(l))
    ensures AllDashed(Bullets(lines))
  {
    forall l | l in lines ensures Dashed(Bullet(l)) {
      DashPlain(l);
    }
  }

  lemma BlockLines(name: string, lines: seq<string>)
    requires Plain(name)
    ensures CleanParts(Block(name, lines)) == ["## " + name] + CleanParts(lines)
  {
    var line := "## " + name;
    assert line[|name| + 2] == name[|name| - 1];
    PlainLine(line);
    NoLines();
    assert Block(name, lines) == [""] + ([line] + lines);
    assert Block(name, lines)[1..] == [line] + lines && ([line] + lines)[1..] == lines;
  }

  lemma DashedParts(lines: seq<string>)
    requires AllDashed(lines)
    ensures CleanParts(lines) == lines
  {
    PlainParts(lines);
  }

  // ---- the whole card

  lemma ReadParts(s: State, a: seq<string>, b: seq<string>)
    ensures Read(s, CleanParts(a + b)) == Read(Read(s, CleanParts(a)), CleanParts(b))
  {
    CleanPartsConcat(a, b);
    ReadConcat(s, CleanParts(a), CleanParts(b));
  }

  function Titled(title: string): State { Start(Some(title)) }

  function TitleOf(c: Card, title: Option<string>): string { if title.Some? then title.value else c.title }

  lemma TitleLine(title: string)
    requires Plain(title)
    ensures Plain("# " + title) && Heading("# " + title) == Some(title) && Strip("# " + title) == "# " + title
  {
    var line := "# " + title;
    assert "#" + " " + title == line;
    HeadingOf("#", title);
    assert line[|title| + 1] == title[|title| - 1];
    TrimmedStrip(line);
  }

  lemma TitleRead(c: Card, title: Option<string>)
    requires Plain(c.title) && Neutral("# " + c.title)
    ensures Read(Start(title), ["# " + c.title]) == Titled(TitleOf(c, title))
    ensures Plain("# " + c.title) && TitleHeading("# " + c.title)
  {
    var line := "# " + c.title;
    TitleLine(c.title);
    ReadOne(Start(title), line);
    hide Heading, Named, Strip, Opens, Sets, TextStep, Read, Items, Plain;
    if title.Some? { NoteLine(Start(title), line); }
  }

  lemma OpeningRead(c: Card, title: Option<string>)
    requires Readable(c)
    ensures Read(Start(title), CleanParts(Opening(c))) == Titled(TitleOf(c, title))
    ensures CleanParts(Opening(c)) != [] && TitleHeading(CleanParts(Opening(c))[0])
  {
    TitleRead(c, title);
    hide TitleHeading, Neutral, Read, Plain;
    var rest := if c.summary == "" then [] else ["", Strip(c.summary)];
    PlainLine("# " + c.title);
    OnePart("# " + c.title);
    CleanPartsConcat(["# " + c.title], rest);
    ReadParts(Start(title), ["# " + c.title], rest);
    SummaryLines(c);
    NoteLines(Titled(TitleOf(c, title)), CleanParts(rest));
  }

  lemma SummaryLines(c: Card)
    requires forall l | l in CleanLines(Strip(c.summary)) :: Neutral(l)
    ensures AllQuiet(CleanParts(if c.summary == "" then [] else ["", Strip(c.summary)]))
  {
    hide Neutral, Strip, CleanLines;
    if c.summary != "" {
      CleanLinesPlain(Strip(c.summary));
      NoLines();
      assert ["", Strip(c.summary)][1..] == [Strip(c.summary)];
      OnePart(Strip(c.summary));
    }
  }

  /** A name whose line sets the field. */
  predicate FieldName(name: string, section: Section) {
    && Plain(name) && (forall k | 0 <= k < |name| :: name[k] != ':')
    && Named("- " + name) == Some(section) && !ListSection(section)
    && AlphaNumeric(LowerChar(name[0])) && LowerChar(name[0]) !in {'i', 's', 'd', 'm', 'n'}
  }

  lemma RenderedFieldNames()
    ensures FieldName("Yield", Servings) && FieldName("Prep time", PrepTime)
    ensures FieldName("Cook time", CookTime) && FieldName("Total time", TotalTime)
  {
    hide Named, FieldName;
    DashedNames();
    YieldAndPrep();
    CookAndTotal();
  }

  lemma DashedNames()
    ensures Named("- " + "Yield") == Some(Servings) && Named("- " + "Prep time") == Some(PrepTime)
    ensures Named("- " + "Cook time") == Some(CookTime) && Named("- " + "Total time") == Some(TotalTime)
  {
    hide Named;
    FieldNames();
    assert "- " + "Yield" == "- Yield" && "- " + "Prep time" == "- Prep time";
    assert "- " + "Cook time" == "- Cook time" && "- " + "Total time" == "- Total time";
  }

  lemma YieldAndPrep()
    requires Named("- " + "Yield") == Some(Servings) && Named("- " + "Prep time") == Some(PrepTime)
    ensures FieldName("Yield", Servings) && FieldName("Prep time", PrepTime)
  {
    hide Named;
  }

  lemma CookAndTotal()
    requires Named("- " + "Cook time") == Some(CookTime) && Named("- " + "Total time") == Some(TotalTime)
    ensures FieldName("Cook time", CookTime) && FieldName("Total time", TotalTime)
  {
    hide Named;
  }

  function With(s: State, section: Section, value: string): State {
    if value == "" then s else s.(fields := SetField(s.fields, section, value))
  }

  /** Reading a field line, wherever it stands. */
  lemma FieldRead(s: State, name: string, value: string, section: Section)
    requires Seen(s) == s && s.title.Some? && (value == "" || Plain(value))
    requires FieldName(name, section)
    ensures Read(s, CleanParts(FieldLine(name, value))) == With(s, section, value) == Seen(With(s, section, value))
    ensures With(s, section, value).title.Some?
  {
    hide Named, Strip, Heading, Opens, Sets, FieldValue, Clean;
    if value != "" {
      FieldLineSets(name, value, section);
      var line := "- " + name + ": " + value;
      PlainLine(line);
      TrimmedStrip(line);
      OnePart(line);
      ReadOne(s, line);
    }
  }

  lemma FieldValues(c: Card)
    requires Readable(c)
    ensures (c.servings == "" || Plain(c.servings)) && (c.prepTime == "" || Plain(c.prepTime))
    ensures (c.cookTime == "" || Plain(c.cookTime)) && (c.totalTime == "" || Plain(c.totalTime))
  {
    var values := [c.servings, c.prepTime, c.cookTime, c.totalTime];
    assert values[0] in values && values[1] in values && values[2] in values && values[3] in values;
  }

  lemma FieldsRead(s: State, c: Card)
    requires Readable(c) && Seen(s) == s && s.title.Some? && s.fields == Fields(None, None, None, None)
    ensures Read(s, CleanParts(GlanceFields(c))) == s.(fields := FieldsOf(c))
  {
    FieldValues(c);
    RenderedFieldNames();
    WithAll(s, c);
    hide Plain, FieldName, FieldLine, With, Readable, Read, Seen, FieldsOf;
    var y, p := FieldLine("Yield", c.servings), FieldLine("Prep time", c.prepTime);
    var k, t := FieldLine("Cook time", c.cookTime), FieldLine("Total time", c.totalTime);
    var s1 := With(s, Servings, c.servings);
    var s2 := With(s1, PrepTime, c.prepTime);
    var s3 := With(s2, CookTime, c.cookTime);
    FieldRead(s, "Yield", c.servings, Servings);
    FieldRead(s1, "Prep time", c.prepTime, PrepTime);
    FieldRead(s2, "Cook time", c.cookTime, CookTime);
    FieldRead(s3, "Total time", c.totalTime, TotalTime);
    ReadParts(s, y, p);
    ReadParts(s, y + p, k);
    ReadParts(s, y + p + k, t);
  }

  lemma WithAll(s: State, c: Card)
    requires s.fields == Fields(None, None, None, None)
    ensures With(With(With(With(s, Servings, c.servings), PrepTime, c.prepTime), CookTime, c.cookTime), TotalTime,
                 c.totalTime) == s.(fields := FieldsOf(c))
  {
  }

  lemma GlanceHeading()
    ensures Quiet("## At a glance")
  {
    hide Heading, Named, Opens, Sets, Plain;
    GlanceName();
    GlanceUndirected();
    GlancePlain();
  }

  lemma GlanceName()
    ensures Heading("## At a glance") == Some("At a glance") && Named("At a glance").None?
  {
    hide Heading, Normalized, SectionOf;
    assert "##" + " " + "At a glance" == "## At a glance";
    HeadingOf("##", "At a glance");
    NormalizedStart("At a glance");
    NameLetters(Normalized("At a glance"));
  }

  lemma GlanceUndirected()
    ensures Opens("## At a glance").None? && Sets("## At a glance").None?
  {
    hide Opens, Sets;
    Undirected("## At a glance");
  }

  lemma GlancePlain()
    ensures Plain("## At a glance")
  {
  }

  lemma {:induction false} RStripReaches(s: string, k: nat)
    requires k < |s| && !Space(s[k])
    ensures s[..k + 1] <= RStrip(s)
  {
    if Space(s[|s| - 1]) { RStripReaches(s[..|s| - 1], k); }
  }

  lemma TagLineQuiet(joined: string)
    requires OneLine(joined)
    ensures AllQuiet(CleanLines("- Tags: " + joined))
  {
    hide Neutral, CleanLines, LineEnd;
    var line := "- Tags: " + joined;
    OneLineParts("- Tags: ", joined);
    LineEndOf(line, |line|);
    OnlyLine(line);
    RStripReaches(line, 6);
    RStripHead(line);
    StripOneLine(line);
    StripTrims(line);
    hide Strip, RStrip;
    assert line[..7] == "- Tags:";
    TagLineNeutral(Strip(line));
  }

  lemma TagsQuiet(tags: seq<string>)
    requires forall t | t in tags :: OneLine(t)
    ensures AllQuiet(CleanParts(TagLine(tags)))
  {
    hide Neutral, Plain, CleanLines, OneLine;
    var shown := Filter((t: string) => Strip(t) != "", tags);
    CommaOneLine();
    JoinOneLine(", ", shown);
    TagLineQuiet(Join(", ", shown));
    OnePart("- Tags: " + Join(", ", shown));
    NoCleanParts();
  }

  lemma CommaOneLine()
    ensures OneLine(", ")
  {
  }

  lemma GlanceRead(s: State, c: Card)
    requires Readable(c) && Seen(s) == s && s.title.Some? && s.section.Notes? && s.fields == Fields(None, None, None, None)
    ensures Read(s, CleanParts(Glance(c))) == s.(fields := FieldsOf(c)) == Seen(s.(fields := FieldsOf(c)))
  {
    hide Read, GlanceFields, TagLine, Clean, Neutral, Plain, Quiet;
    if HasGlance(c) {
      var heading, t := ["", "## At a glance"], s.(fields := FieldsOf(c));
      FieldsRead(s, c);
      hide FieldsOf;
      GlanceHeading();
      HeadingParts("## At a glance");
      NoteLines(s, ["## At a glance"]);
      ReadParts(s, heading, GlanceFields(c));
      ReadParts(s, heading + GlanceFields(c), TagLine(c.tags));
      TagsQuiet(c.tags);
      NoteLines(t, CleanParts(TagLine(c.tags)));
    } else {
      NoParts(s);
    }
  }

  lemma NoParts(s: State)
    ensures Read(s, CleanParts([])) == s
  {
  }

  lemma HeadingParts(line: string)
    requires Quiet(line)
    ensures CleanParts(["", line]) == [line]
  {
    PlainLine(line);
    NoLines();
    assert ["", line][1..] == [line];
    OnePart(line);
  }

  lemma IngredientsRead(s: State, c: Card)
    requires Readable(c) && Seen(s) == s && s.title.Some?
    ensures
      var t := if c.ingredients == [] then s
               else s.(section := Ingredients, ingredients := s.ingredients + Bulleted(c.ingredients));
      Read(s, CleanParts(IngredientBlock(c))) == t == Seen(t)
  {
    BulletedDashed(c.ingredients);
    hide Readable, Read, Bulleted, Dashed, Named, Seen, Plain;
    if c.ingredients == [] {
      NoParts(s);
    } else {
      RenderedNames();
      NamesPlain();
      OpenSection(s, "Ingredients", Ingredients);
      BlockLines("Ingredients", Bulleted(c.ingredients));
      DashedParts(Bulleted(c.ingredients));
      ReadConcat(s, ["## " + "Ingredients"], Bulleted(c.ingredients));
      IngredientLines(Enter(s, Ingredients), Bulleted(c.ingredients));
    }
  }

  lemma NamesPlain()
    ensures Plain("Ingredients") && Plain("Method") && Plain("Notes") && Plain("Source")
  {
  }

  lemma MethodRead(s: State, c: Card)
    requires Readable(c) && Seen(s) == s && s.title.Some? && !s.underHeading
    ensures
      var t := if c.steps == [] then s else s.(section := Steps, steps := s.steps + Numbered(c.steps));
      Read(s, CleanParts(MethodBlock(c))) == t == Seen(t)
  {
    NumberedDashed(c.steps);
    hide Readable, Read, Numbered, Dashed, Named, Seen, Plain;
    if c.steps == [] {
      NoParts(s);
    } else {
      RenderedNames();
      NamesPlain();
      OpenSection(s, "Method", Steps);
      BlockLines("Method", Numbered(c.steps));
      DashedParts(Numbered(c.steps));
      ReadConcat(s, ["## " + "Method"], Numbered(c.steps));
      StepLines(Enter(s, Steps), Numbered(c.steps));
    }
  }

  lemma NotesRead(s: State, c: Card)
    requires Readable(c) && Seen(s) == s && s.title.Some?
    ensures
      var t := if c.notes == "" then s else s.(section := Notes);
      Read(s, CleanParts(NotesBlock(c))) == t == Seen(t)
  {
    CleanLinesPlain(Strip(c.notes));
    assert AllQuiet(CleanLines(Strip(c.notes)));
    hide Readable, Read, Named, Seen, Neutral, Plain, Strip, CleanLines, Quiet, Block;
    if c.notes == "" {
      NoParts(s);
    } else {
      RenderedNames();
      NamesPlain();
      OpenSection(s, "Notes", Notes);
      BlockLines("Notes", [Strip(c.notes)]);
      OnePart(Strip(c.notes));
      ReadConcat(s, ["## " + "Notes"], CleanLines(Strip(c.notes)));
      NoteLines(Enter(s, Notes), CleanLines(Strip(c.notes)));
    }
  }

  /** What the source section adds, depending on the section it follows. */
  function Sourced(s: State, c: Card): State {
    if c.source == "" then s
    else
      match s.section
      case Ingredients => s.(ingredients := s.ingredients + Bullets(CleanLines(c.source)))
      case Steps => s.(underHeading := true, steps := s.steps + ["Source"])
      case _ => s
  }

  lemma SourceParts(c: Card)
    requires forall l | l in CleanLines(c.source) :: Neutral(Bullet(l))
    ensures AllDashed(Bullets(CleanLines(c.source)))
    ensures CleanParts(SourceBlock(c))
      == if c.source == "" then [] else ["## Source"] + Bullets(CleanLines(c.source))
  {
    CleanLinesPlain(c.source);
    BulletsDashed(CleanLines(c.source));
    hide Bullets, CleanLines, Dashed, Plain, Neutral, CleanParts, Block;
    SourceBlockLines(Bullets(CleanLines(c.source)));
    NoCleanParts();
  }

  lemma SourceBlockLines(bullets: seq<string>)
    requires AllDashed(bullets)
    ensures CleanParts(Block("Source", bullets)) == ["## Source"] + bullets
  {
    NamesPlain();
    hide Dashed, Plain, CleanParts, Block;
    DashedParts(bullets);
    BlockLines("Source", bullets);
    assert "## " + "Source" == "## Source";
  }

  lemma NoCleanParts()
    ensures CleanParts([]) == []
  {
  }

  lemma SourceRead(s: State, c: Card)
    requires Readable(c) && Seen(s) == s && s.title.Some? && !s.underHeading && ListSection(s.section)
    ensures Read(s, CleanParts(SourceBlock(c))) == Sourced(s, c)
  {
    SourceParts(c);
    hide Readable, Read, Bullets, CleanLines, CleanParts, SourceBlock, Dashed, Seen;
    if c.source == "" {
      ReadNothing(s);
    } else {
      SourceSection(s, Bullets(CleanLines(c.source)));
    }
  }

  lemma ReadNothing(s: State)
    ensures Read(s, []) == s
  {
  }

  /** The parser's state when the source section begins. */
  function BeforeSource(c: Card, title: string): State {
    var section := if c.notes != "" then Notes else if c.steps != [] then Steps
                   else if c.ingredients != [] then Ingredients else Notes;
    State(Some(title), section, Bulleted(c.ingredients), Numbered(c.steps), [], FieldsOf(c), false)
  }

  lemma BodyRead(c: Card, title: string)
    requires Readable(c)
    ensures
      var body := CleanParts(Glance(c)) + CleanParts(IngredientBlock(c)) + CleanParts(MethodBlock(c))
                  + CleanParts(NotesBlock(c));
      Read(Titled(title), body) == BeforeSource(c, title) == Seen(BeforeSource(c, title))
  {
    var g, i, m, n := CleanParts(Glance(c)), CleanParts(IngredientBlock(c)), CleanParts(MethodBlock(c)),
                      CleanParts(NotesBlock(c));
    var s0 := Titled(title);
    assert Bulleted([]) == [] && Numbered([]) == [] && Seen(s0) == s0;
    assert [] + Bulleted(c.ingredients) == Bulleted(c.ingredients) && [] + Numbered(c.steps) == Numbered(c.steps);
    ReadConcat(s0, g, i);
    ReadConcat(s0, g + i, m);
    ReadConcat(s0, g + i + m, n);
    hide Readable, Read, Seen, Bulleted, Numbered, Glance, IngredientBlock, MethodBlock, NotesBlock, CleanParts, FieldsOf;
    GlanceRead(s0, c);
    var s1 := Read(s0, g);
    IngredientsRead(s1, c);
    var s2 := Read(s1, i);
    MethodRead(s2, c);
    var s3 := Read(s2, m);
    NotesRead(s3, c);
  }

  lemma CardLines(c: Card)
    requires Plain(c.title)
    ensures CleanLines(Rendered(c)) == CleanParts(Parts(c))
  {
    hide Join, Strip, Glance, IngredientBlock, MethodBlock, NotesBlock, SourceBlock, CleanLines, CleanParts;
    JoinedLines(Parts(c));
    JoinStart(Parts(c));
    CleanTrailing(Join("\n", Parts(c)));
  }

  lemma JoinStart(parts: seq<string>)
    requires parts != [] && parts[0] != ""
    ensures Join("\n", parts) != "" && Join("\n", parts)[0] == parts[0][0]
  {
  }

  lemma PartsLines(c: Card)
    ensures CleanParts(Parts(c)) == CleanParts(Opening(c))
      + (CleanParts(Glance(c)) + CleanParts(IngredientBlock(c)) + CleanParts(MethodBlock(c)) + CleanParts(NotesBlock(c)))
      + CleanParts(SourceBlock(c))
  {
    hide CleanParts, Opening, Glance, IngredientBlock, MethodBlock, NotesBlock, SourceBlock;
    var o, g, i, m, n := Opening(c), Glance(c), IngredientBlock(c), MethodBlock(c), NotesBlock(c);
    CleanPartsConcat(o, g);
    CleanPartsConcat(o + g, i);
    CleanPartsConcat(o + g + i, m);
    CleanPartsConcat(o + g + i + m, n);
    CleanPartsConcat(o + g + i + m + n, SourceBlock(c));
  }

  /** The parser's state at the end of a rendered card. */
  lemma CardRead(c: Card, title: Option<string>)
    requires Readable(c)
    ensures CleanLines(Rendered(c)) != [] && TitleHeading(CleanLines(Rendered(c))[0])
    ensures Read(Start(title), CleanLines(Rendered(c))) == Sourced(BeforeSource(c, TitleOf(c, title)), c)
  {
    hide Read, Parts, Opening, Glance, IngredientBlock, MethodBlock, NotesBlock, SourceBlock, CleanParts, Sourced,
         TitleHeading, Rendered, CleanLines, Seen, Neutral;
    CardLines(c);
    PartsLines(c);
    OpeningRead(c, title);
    var o := CleanParts(Opening(c));
    var body := CleanParts(Glance(c)) + CleanParts(IngredientBlock(c)) + CleanParts(MethodBlock(c))
                + CleanParts(NotesBlock(c));
    BodyRead(c, TitleOf(c, title));
    ReadConcat(Start(title), o, body);
    ReadConcat(Start(title), o + body, CleanParts(SourceBlock(c)));
    SourceRead(BeforeSource(c, TitleOf(c, title)), c);
  }

  // ---- the lists read back

  lemma {:induction false} ItemsAre(lines: seq<string>, items: seq<string>)
    requires |lines| == |items| && forall i | 0 <= i < |lines| :: Item(lines[i]) == items[i] && items[i] != ""
    ensures Items(lines) == items
  {
    hide Item;
    if lines != [] {
      var n := |lines| - 1;
      ItemsAre(lines[..n], items[..n]);
      assert items == items[..n] + [items[n]];
    }
  }

  lemma BulletsBack(items: seq<string>)
    requires forall i | 0 <= i < |items| :: Plain(items[i])
    ensures Items(Bulleted(items)) == seq(|items|, i requires 0 <= i < |items| => DropNumber(items[i]))
  {
    hide Plain, DropNumber, Item, Items, Bulleted;
    BulletedAll(items);
    var dropped := seq(|items|, i requires 0 <= i < |items| => DropNumber(items[i]));
    forall i | 0 <= i < |items| ensures Item(Bulleted(items)[i]) == dropped[i] && dropped[i] != "" {
      BulletBack(items[i]);
    }
    ItemsAre(Bulleted(items), dropped);
  }

  lemma BulletBack(item: string)
    requires Plain(item)
    ensures Item("- " + item) == DropNumber(item) != ""
  {
    BulletItem(item);
    DropNumberKeeps(item);
  }

  lemma IngredientsBack(items: seq<string>)
    requires forall x | x in items :: Plain(x)
    ensures Items(Bulleted(items)) == items <==> forall x | x in items :: !NumberPrefixed(x)
    ensures |Items(Bulleted(items))| == |items|
  {
    hide Items, Bulleted, DropNumber, NumberPrefixed, Plain;
    BulletsBack(items) by { assert forall i | 0 <= i < |items| :: items[i] in items; }
    forall i | 0 <= i < |items| ensures Items(Bulleted(items))[i] == items[i] <==> !NumberPrefixed(items[i]) {
      PlainKeepsNumber(items[i]);
    }
    if forall x | x in items :: !NumberPrefixed(x) {
      assert Items(Bulleted(items)) == items;
    }
  }

  lemma PlainKeepsNumber(item: string)
    requires Plain(item)
    ensures DropNumber(item) == item <==> !NumberPrefixed(item)
  {
    DropNumberKeeps(item);
  }

  lemma StepsBack(steps: seq<string>)
    requires forall x | x in steps :: Plain(x)
    ensures Items(Numbered(steps)) == steps
  {
    hide Plain, Digits, Item, Items, Numbered;
    assert forall i | 0 <= i < |steps| :: steps[i] in steps;
    NumberedAll(steps);
    forall i | 0 <= i < |steps| ensures Item(Numbered(steps)[i]) == steps[i] && steps[i] != "" {
      NumberedBack(i + 1, steps[i]);
    }
    ItemsAre(Numbered(steps), steps);
  }

  lemma NumberedBack(n: nat, step: string)
    requires Plain(step)
    ensures Item(Digits(n) + ". " + step) == step != ""
  {
    NumberedItem(n, step);
  }

  lemma SourceItself()
    ensures Item("Source") == "Source"
  {
    SourcePlain();
    TrimmedStrip("Source");
    hide Strip, DropNumber;
  }

  lemma SourceItem(lines: seq<string>)
    ensures Items(lines + ["Source"]) == Items(lines) + ["Source"]
  {
    hide Item, Items;
    ItemsConcat(lines, ["Source"]);
    ItemsOne("Source");
    SourceItself();
  }

  predicate NoneNumbered(items: seq<string>) { forall x | x in items :: !NumberPrefixed(x) }

  lemma NothingAdded(a: seq<string>, b: seq<string>, items: seq<string>)
    requires |a| == |items|
    ensures a + b == items <==> a == items && b == []
  {
    if b != [] { assert |a + b| > |items|; }
    assert a + [] == a;
  }

  /** The lists the parser collects are the card's own, in the cases the theorem names. */
  lemma ListsBack(c: Card, title: string)
    requires (forall x | x in c.ingredients :: Plain(x)) && (forall x | x in c.steps :: Plain(x))
    ensures
      var s := Sourced(BeforeSource(c, title), c);
      && s.fields == FieldsOf(c)
      && ((Items(s.ingredients) == c.ingredients && StepItems(s.steps) == c.steps)
          <==> NoneNumbered(c.ingredients) && SourceKept(c))
  {
    IngredientsBack(c.ingredients);
    StepsBack(c.steps);
    StepsOrClean(c.steps);
    hide Items, Bulleted, Numbered, Bullets, CleanLines, FieldsOf, Plain, StepItems, NumberPrefixed;
    SourcedLists(c, title);
    hide Sourced, BeforeSource;
    if c.source == "" || c.notes != "" {
    } else if c.steps != [] {
      StepsMistaken(c);
    } else {
      IngredientsMistaken(c);
    }
  }

  lemma SourcedLists(c: Card, title: string)
    ensures
      var s, bullets := Sourced(BeforeSource(c, title), c), Bullets(CleanLines(c.source));
      var extra := c.source != "" && c.notes == "";
      && s.fields == FieldsOf(c)
      && s.steps == (if extra && c.steps != [] then Numbered(c.steps) + ["Source"] else Numbered(c.steps))
      && s.ingredients == if extra && c.steps == [] && c.ingredients != [] then Bulleted(c.ingredients) + bullets
                          else Bulleted(c.ingredients)
  {
    hide Bulleted, Numbered, Bullets, CleanLines, FieldsOf;
  }

  lemma StepsMistaken(c: Card)
    requires Items(Numbered(c.steps)) == c.steps
    ensures StepItems(Numbered(c.steps) + ["Source"]) != c.steps
  {
    hide Items, StepItems, Numbered;
    SourceItem(Numbered(c.steps));
    StepsExtended(Numbered(c.steps) + ["Source"], c.steps);
  }

  lemma IngredientsMistaken(c: Card)
    requires |Items(Bulleted(c.ingredients))| == |c.ingredients|
    ensures
      var bullets := Bullets(CleanLines(c.source));
      Items(Bulleted(c.ingredients) + bullets) == c.ingredients
      <==> Items(Bulleted(c.ingredients)) == c.ingredients && Items(bullets) == []
  {
    hide Items, Bulleted, Bullets;
    ItemsConcat(Bulleted(c.ingredients), Bullets(CleanLines(c.source)));
    NothingAdded(Items(Bulleted(c.ingredients)), Items(Bullets(CleanLines(c.source))), c.ingredients);
  }

  lemma StepsExtended(lines: seq<string>, steps: seq<string>)
    requires Items(lines) == steps + ["Source"]
    ensures StepItems(lines) != steps
  {
    assert |steps + ["Source"]| == |steps| + 1;
  }

  lemma StepsOrClean(steps: seq<string>)
    requires Items(Numbered(steps)) == steps
    ensures StepItems(Numbered(steps)) == steps
  {
    assert Clean([]) == [] && Numbered([]) == [];
  }

  /** A rendered card is read back with the same ingredients, steps, yield and times exactly when no ingredient begins
      with a number and its source section is absent, follows notes, or adds nothing to what it follows. */
  lemma RoundTrip(c: Card, title: Option<string>, query: string)
    requires Readable(c)
    ensures
      var r := Extract(Rendered(c), title, query);
      (r.ingredients == c.ingredients && r.steps == c.steps && r.fields == FieldsOf(c))
      <==> NoneNumbered(c.ingredients) && SourceKept(c)
  {
    CardRead(c, title);
    ExtractReads(Rendered(c), title, query);
    ListsBack(c, TitleOf(c, title));
    hide Extract, Rendered, Read, Items, StepItems, FieldsOf, NoneNumbered, SourceKept, TitleHeading, Sourced, BeforeSource;
  }

  /** Without notes in front of it, the source section goes to the section that is open. */
  predicate SourceAstray(c: Card) { c.source != "" && c.notes == "" }

  function AddedSteps(c: Card): seq<string> { if SourceAstray(c) && c.steps != [] then ["Source"] else [] }

  function AddedIngredients(c: Card): seq<string> {
    if SourceAstray(c) && c.steps == [] && c.ingredients != [] then Items(Bullets(CleanLines(c.source))) else []
  }

  lemma StepsWithSource(steps: seq<string>)
    requires forall x | x in steps :: Plain(x)
    ensures StepItems(Numbered(steps)) == steps && StepItems(Numbered(steps) + ["Source"]) == steps + ["Source"]
  {
    StepsBack(steps);
    StepsOrClean(steps);
    hide Items, Numbered, Plain;
    SourceItem(Numbered(steps));
  }

  lemma IngredientsWithSource(items: seq<string>, source: string)
    requires (forall x | x in items :: Plain(x)) && NoneNumbered(items)
    ensures Items(Bulleted(items)) == items
    ensures Items(Bulleted(items) + Bullets(CleanLines(source))) == items + Items(Bullets(CleanLines(source)))
  {
    IngredientsBack(items);
    hide Items, Bulleted, Bullets, CleanLines, Plain;
    ItemsConcat(Bulleted(items), Bullets(CleanLines(source)));
  }

  lemma ListsSourced(c: Card, title: string)
    requires (forall x | x in c.ingredients :: Plain(x)) && (forall x | x in c.steps :: Plain(x))
    requires NoneNumbered(c.ingredients)
    ensures
      var s := Sourced(BeforeSource(c, title), c);
      StepItems(s.steps) == c.steps + AddedSteps(c) && Items(s.ingredients) == c.ingredients + AddedIngredients(c)
  {
    StepsWithSource(c.steps);
    IngredientsWithSource(c.ingredients, c.source);
    hide Items, StepItems, FieldsOf, NoneNumbered, Plain, Bulleted, Numbered, Bullets, CleanLines;
    SourcedLists(c, title);
    hide Sourced, BeforeSource;
    if !SourceAstray(c) || (c.steps == [] && c.ingredients == []) {
      NothingBehind(c.steps);
      NothingBehind(c.ingredients);
    } else if c.steps != [] {
      NothingBehind(c.ingredients);
    } else {
      NothingBehind(c.steps);
    }
  }

  /** Exactly what is read back: behind steps the heading of a stray source section is one more step, and behind
      ingredients its bullets are more ingredients; everything else is the card's own. */
  lemma ListsRead(c: Card, title: Option<string>, query: string)
    requires Readable(c) && NoneNumbered(c.ingredients)
    ensures
      var r := Extract(Rendered(c), title, query);
      r.steps == c.steps + AddedSteps(c) && r.ingredients == c.ingredients + AddedIngredients(c)
  {
    CardRead(c, title);
    ExtractReads(Rendered(c), title, query);
    ListsSourced(c, TitleOf(c, title));
    hide Extract, Rendered, Read, Items, StepItems, FieldsOf, NoneNumbered, AddedSteps, AddedIngredients, TitleHeading,
         Sourced, BeforeSource;
  }

  function Toast(ingredients: seq<string>, steps: seq<string>): Card {
    Card("Toast", "", ingredients, steps, "", "", "", "", "", [], "grandmother")
  }

  /** A card with a step and a source but no notes gains its source heading as a step. */
  lemma SourceBecomesStep(query: string)
    ensures
      var c := Toast([], ["Toast the bread"]);
      Readable(c) && Extract(Rendered(c), Some("Toast"), query).steps == c.steps + ["Source"]
  {
    ToastReadable([], ["Toast the bread"]);
    ListsRead(Toast([], ["Toast the bread"]), Some("Toast"), query);
    hide Extract, Rendered, Readable;
  }

  /** A card with an ingredient and a source but neither steps nor notes gains its source as an ingredient. */
  lemma SourceBecomesIngredient(query: string)
    ensures
      var c := Toast(["bread"], []);
      Readable(c) && Extract(Rendered(c), Some("Toast"), query).ingredients == c.ingredients + ["grandmother"]
  {
    ToastReadable(["bread"], []);
    BreadPlain();
    ListsRead(Toast(["bread"], []), Some("Toast"), query);
    GrandmotherBack();
    hide Extract, Rendered, Readable, Items, Bullets, CleanLines;
  }

  lemma BreadPlain()
    ensures Plain("bread") && Neutral(Bullet("bread")) && Bullet("bread") == "- " + "bread" && !NumberPrefixed("bread")
  {
    hide Neutral;
    assert "- " + "bread" == "- bread";
    ColonFree("- bread");
  }

  lemma GrandmotherBack()
    ensures Items(Bullets(CleanLines("grandmother"))) == ["grandmother"]
  {
    hide Item;
    ToastPlain();
    PlainLine("grandmother");
    assert Bullets(["grandmother"]) == ["- " + "grandmother"];
    ItemsOne("- " + "grandmother");
    BulletBack("grandmother");
    assert !NumberPrefixed("grandmother");
    PlainKeepsNumber("grandmother");
  }

  lemma ToastReadable(ingredients: seq<string>, steps: seq<string>)
    requires forall x | x in ingredients :: x == "bread"
    requires forall x | x in steps :: x == "Toast the bread"
    ensures Readable(Toast(ingredients, steps))
  {
    hide Neutral, CleanLines, Strip, Plain, NumberPrefixed;
    ToastPlain();
    BreadPlain();
    PlainLine("grandmother");
    NoLines();
    SourceNeutral();
    ToastTitle();
    assert "# " + "Toast" == "# Toast";
    var c := Toast(ingredients, steps);
    assert forall l | l in CleanLines(c.source) :: l == "grandmother";
    assert CleanLines(Strip(c.summary)) == [] && CleanLines(Strip(c.notes)) == [];
  }

  lemma ToastPlain()
    ensures Plain("Toast") && Plain("Toast the bread") && Plain("grandmother") && Strip("") == ""
  {
    TrimmedStrip("");
  }

  lemma SourceNeutral()
    ensures Neutral(Bullet("grandmother"))
  {
    hide Neutral;
    assert "- " + "grandmother" == "- grandmother";
    ColonFree("- grandmother");
  }

  lemma ToastTitle()
    ensures Neutral("# Toast")
  {
    hide Named, Heading, Opens, Sets;
    assert "#" + " " + "Toast" == "# Toast";
    HeadingOf("#", "Toast");
    Undirected("# Toast");
    ToastUnnamed();
  }

  lemma ToastUnnamed()
    ensures Named("Toast").None?
  {
    hide Normalized;
    OneWord("Toast", "toast") by { assert Lower("Toast") == "toast"; }
    NameOfToast();
    hide SectionOf;
  }

  lemma NameOfToast()
    ensures SectionOf("toast").None?
  {
  }
}
