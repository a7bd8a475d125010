/** Recipe cards: the line parser of recipe texts and the renderer of recipe notes. */
module RecipeCard {
  import opened Prelude
  import opened Text
  import opened Lines
  import opened Decimal

  datatype Section = Ingredients | Steps | Notes | Servings | PrepTime | CookTime | TotalTime

  predicate ListSection(s: Section) { s.Ingredients? || s.Steps? || s.Notes? }

  function SectionOf(name: string): Option<Section> {
    if name == "ingredients" || name == "ingredient" then Some(Ingredients)
    else if name == "steps" || name == "step" || name == "step by step instructions" || name == "step by step"
         || name == "directions" || name == "direction" || name == "instructions" || name == "method" then Some(Steps)
    else if name == "notes" || name == "note" then Some(Notes)
    else if name == "servings" || name == "yield" || name == "makes" then Some(Servings)
    else if name == "prep time" || name == "preparation time" then Some(PrepTime)
    else if name == "cook time" || name == "cooking time" then Some(CookTime)
    else if name == "total time" then Some(TotalTime)
    else None
  }

  function Normalized(s: string): string { Strip(Squeeze(Lower(s), ' ', false)) }

  function Named(s: string): Option<Section> { SectionOf(Normalized(s)) }

  function Hashes(s: string): (n: nat)
    ensures n <= |s| && (forall i | 0 <= i < n :: s[i] == '#') && (n < |s| ==> s[n] != '#')
  {
    if s != "" && s[0] == '#' then 1 + Hashes(s[1..]) else 0
  }

  /** The text of a heading: one to six hashes, space, and the rest. */
  function Heading(line: string): Option<string> {
    var n := Hashes(line);
    if 1 <= n <= 6 && n < |line| && Space(line[n]) then Some(Strip(line[n..])) else None
  }

  /** Without a leading number, its point or parenthesis, and the space behind it. */
  function DropNumber(line: string): string {
    var end := DigitsEnd(line, 0);
    if 0 < end && end + 1 < |line| && (line[end] == '.' || line[end] == ')') && Space(line[end + 1])
    then Strip(line[end + 1..]) else line
  }

  predicate Dash(c: char) { c == '-' || c == '*' }

  function DropDashes(s: string): string { if s != "" && Dash(s[0]) then DropDashes(s[1..]) else s }

  function Item(raw: string): string {
    var line := Strip(raw);
    var text := if line != "" && Dash(line[0]) then Strip(DropDashes(line)) else line;
    DropNumber(text)
  }

  function Items(lines: seq<string>): seq<string> {
    if lines == [] then []
    else
      var item := Item(lines[|lines| - 1]);
      Items(lines[..|lines| - 1]) + if item == "" then [] else [item]
  }

  function StepItems(lines: seq<string>): seq<string> { if Items(lines) != [] then Items(lines) else Clean(lines) }

  method NormalizeLines(lines: seq<string>) returns (items: seq<string>)
    ensures items == Items(lines)
  {
    items := [];
    assert lines[..0] == [];
    for k := 0 to |lines|
      invariant items == Items(lines[..k])
    {
      assert lines[..k + 1][..k] == lines[..k];
      var line := Strip(lines[k]);
      if line != "" {
        if Dash(line[0]) { line := Strip(DropDashes(line)); }
        line := DropNumber(line);
        if line != "" { items := items + [line]; }
      }
    }
    assert lines[..|lines|] == lines;
  }

  datatype Fields = Fields(
    servings: Option<string>, prepTime: Option<string>, cookTime: Option<string>, totalTime: Option<string>)

  /** What the parser knows after some lines. */
  datatype State = State(
    title: Option<string>, section: Section, ingredients: seq<string>, steps: seq<string>, notes: seq<string>,
    fields: Fields, underHeading: bool)

  function Start(title: Option<string>): State { State(title, Notes, [], [], [], Fields(None, None, None, None), false) }

  function Enter(s: State, section: Section): State {
    s.(section := section, underHeading := if section.Steps? then false else s.underHeading)
  }

  /** A heading that names no section: a title, a step, or nothing special. */
  function PlainHeading(s: State, heading: string): Option<State> {
    if s.title.None? then Some(s.(title := Some(heading)))
    else if s.section.Ingredients? then Some(s)
    else if s.section.Steps? then
      var step := DropNumber(heading);
      Some(s.(underHeading := true, steps := s.steps + if step == "" then [] else [step]))
    else None
  }

  function Colon(line: string): (i: nat)
    ensures i <= |line| && (forall k | 0 <= k < i :: line[k] != ':') && (i < |line| ==> line[i] == ':')
  {
    if line == "" || line[0] == ':' then 0 else 1 + Colon(line[1..])
  }

  /** `Name:` on a line of its own opens a list section. */
  function Opens(line: string): Option<Section> {
    if line != "" && line[|line| - 1] == ':' then
      var section := Named(line[..|line| - 1]);
      if section.Some? && ListSection(section.value) then section else None
    else None
  }

  /** `Name: value` sets a field. */
  function Sets(line: string): Option<Section> {
    if Colon(line) < |line| then
      var section := Named(Strip(line[..Colon(line)]));
      if section.Some? && !ListSection(section.value) then section else None
    else None
  }

  function SetField(f: Fields, section: Section, value: string): Fields {
    match section
    case Servings => f.(servings := Some(value))
    case PrepTime => f.(prepTime := Some(value))
    case CookTime => f.(cookTime := Some(value))
    case TotalTime => f.(totalTime := Some(value))
    case _ => f
  }

  function FieldValue(line: string): string
    requires Colon(line) < |line|
  {
    Strip(line[Colon(line) + 1..])
  }

  function WordCount(s: string, inWord: bool): nat {
    if s == "" then 0
    else if Space(s[0]) then WordCount(s[1..], false)
    else (if inWord then 0 else 1) + WordCount(s[1..], true)
  }

  predicate TitleLike(raw: string) {
    WordCount(raw, false) <= 16 && !("-" <= raw) && !("*" <= raw) && !("1." <= raw)
  }

  function TrimHashes(s: string): string {
    if s != "" && (s[0] == '#' || s[0] == ' ') then TrimHashes(s[1..])
    else if s != "" && (s[|s| - 1] == '#' || s[|s| - 1] == ' ') then TrimHashes(s[..|s| - 1])
    else s
  }

  function Keep(s: State, raw: string): State {
    match s.section
    case Ingredients => s.(ingredients := s.ingredients + [raw])
    case Steps => s.(steps := s.steps + [raw])
    case _ => s.(notes := s.notes + [raw])
  }

  function TextStep(s: State, raw: string, line: string): State {
    if Opens(line).Some? then Enter(s, Opens(line).value)
    else if Sets(line).Some? then s.(fields := SetField(s.fields, Sets(line).value, FieldValue(line)))
    else if s.section.Ingredients? && "##" <= line then s
    else if s.section.Steps? && s.underHeading then s
    else Keep(s, raw)
  }

  function Step(s: State, raw: string, first: string): State {
    var line := Strip(raw);
    if line == "" then if s.section.Notes? then s.(notes := s.notes + [""]) else s
    else
      var heading := Heading(line);
      if heading.Some? && Named(heading.value).Some? then Enter(s, Named(heading.value).value)
      else if heading.Some? && PlainHeading(s, heading.value).Some? then PlainHeading(s, heading.value).value
      else if s.title.None? && raw == first && TitleLike(raw) then s.(title := Some(Strip(TrimHashes(raw))))
      else TextStep(s, raw, line)
  }

  /** The state after the lines, read in order. */
  function After(s: State, lines: seq<string>, first: string): State {
    if lines == [] then s else Step(After(s, lines[..|lines| - 1], first), lines[|lines| - 1], first)
  }

  datatype Structure = Structure(title: string, ingredients: seq<string>, steps: seq<string>, fields: Fields, notes: string)

  function RStripped(lines: seq<string>): seq<string> {
    seq(|lines|, i requires 0 <= i < |lines| => RStrip(lines[i]))
  }

  function Either(a: string, b: string): string { if a != "" then a else b }

  function NoteText(notes: seq<string>): string {
    Strip(Join("\n", Filter((n: string) => Strip(n) != "", notes)))
  }

  /** What the parser reads from a text; absent arguments are empty texts, except that an empty title is a title. */
  function Extract(text: string, title: Option<string>, query: string): Structure {
    var lines := RStripped(SplitLines(text));
    var given := if title.Some? then title.value else "";
    if Clean(lines) == [] then
      Structure(Either(given, Either(query, "Recipe")), [], [], Fields(None, None, None, None), "")
    else
      assert lines != [];
      var s := After(Start(title), lines, lines[0]);
      var inferred := if s.title.Some? then s.title.value else "";
      Structure(Either(inferred, Either(given, Either(query, "Recipe"))),
                Items(s.ingredients), StepItems(s.steps), s.fields, NoteText(s.notes))
  }

  method ExtractRecipeStructure(text: string, title: Option<string>, query: string) returns (r: Structure)
    ensures r == Extract(text, title, query)
  {
    hide Step, NoteText;
    var lines := RStripped(SplitLines(text));
    var given := if title.Some? then title.value else "";
    if Clean(lines) == [] {
      return Structure(Either(given, Either(query, "Recipe")), [], [], Fields(None, None, None, None), "");
    }
    var s := Start(title);
    assert lines[..0] == [];
    for k := 0 to |lines|
      invariant s == After(Start(title), lines[..k], lines[0])
    {
      assert lines[..k + 1][..k] == lines[..k];
      s := Step(s, lines[k], lines[0]);
    }
    assert lines[..|lines|] == lines;
    var inferred := if s.title.Some? then s.title.value else "";
    var ingredients := NormalizeLines(s.ingredients);
    var steps := NormalizeLines(s.steps);
    if steps == [] { steps := Clean(s.steps); }
    return Structure(Either(inferred, Either(given, Either(query, "Recipe"))), ingredients, steps, s.fields,
                     NoteText(s.notes));
  }

  // ---- rendering

  /** The arguments of the renderer; an absent text is empty. */
  datatype Card = Card(
    title: string, summary: string, ingredients: seq<string>, steps: seq<string>, servings: string, prepTime: string,
    cookTime: string, totalTime: string, notes: string, tags: seq<string>, source: string)

  function Bulleted(items: seq<string>): seq<string> {
    if items == [] then []
    else
      var n := |items| - 1;
      Bulleted(items[..n]) + if Strip(items[n]) == "" then [] else ["- " + items[n]]
  }

  function Numbered(steps: seq<string>): seq<string> {
    if steps == [] then []
    else
      var n := |steps| - 1;
      Numbered(steps[..n]) + if Strip(steps[n]) == "" then [] else [Digits(n + 1) + ". " + steps[n]]
  }

  function Bullet(line: string): string { if "-" <= line then line else "- " + line }

  function Bullets(lines: seq<string>): seq<string> {
    seq(|lines|, i requires 0 <= i < |lines| => Bullet(lines[i]))
  }

  function TagLine(tags: seq<string>): seq<string> {
    var joined := Join(", ", Filter((t: string) => Strip(t) != "", tags));
    if joined == "" then [] else ["- Tags: " + joined]
  }

  function FieldLine(name: string, value: string): seq<string> {
    if value == "" then [] else ["- " + name + ": " + value]
  }

  predicate HasGlance(c: Card) {
    c.servings != "" || c.prepTime != "" || c.cookTime != "" || c.totalTime != "" || c.tags != []
  }

  function GlanceFields(c: Card): seq<string> {
    FieldLine("Yield", c.servings) + FieldLine("Prep time", c.prepTime) + FieldLine("Cook time", c.cookTime)
    + FieldLine("Total time", c.totalTime)
  }

  function Glance(c: Card): seq<string> {
    if !HasGlance(c) then [] else ["", "## At a glance"] + GlanceFields(c) + TagLine(c.tags)
  }

  function Block(heading: string, lines: seq<string>): seq<string> { ["", "## " + heading] + lines }

  function Opening(c: Card): seq<string> {
    ["# " + c.title] + if c.summary == "" then [] else ["", Strip(c.summary)]
  }

  function IngredientBlock(c: Card): seq<string> {
    if c.ingredients == [] then [] else Block("Ingredients", Bulleted(c.ingredients))
  }

  function MethodBlock(c: Card): seq<string> {
    if c.steps == [] then [] else Block("Method", Numbered(c.steps))
  }

  function NotesBlock(c: Card): seq<string> { if c.notes == "" then [] else Block("Notes", [Strip(c.notes)]) }

  function SourceBlock(c: Card): seq<string> {
    if c.source == "" then [] else Block("Source", Bullets(CleanLines(c.source)))
  }

  function Parts(c: Card): seq<string> {
    Opening(c) + Glance(c) + IngredientBlock(c) + MethodBlock(c) + NotesBlock(c) + SourceBlock(c)
  }

  function Rendered(c: Card): string { Strip(Join("\n", Parts(c))) + "\n" }

  method BulletLines(items: seq<string>) returns (lines: seq<string>)
    ensures lines == Bulleted(items)
  {
    lines := [];
    assert items[..0] == [];
    for k := 0 to |items|
      invariant lines == Bulleted(items[..k])
    {
      assert items[..k + 1][..k] == items[..k];
      if Strip(items[k]) != "" { lines := lines + ["- " + items[k]]; }
    }
    assert items[..|items|] == items;
  }

  method NumberLines(steps: seq<string>) returns (lines: seq<string>)
    ensures lines == Numbered(steps)
  {
    lines := [];
    assert steps[..0] == [];
    for k := 0 to |steps|
      invariant lines == Numbered(steps[..k])
    {
      assert steps[..k + 1][..k] == steps[..k];
      if Strip(steps[k]) != "" { lines := lines + [Digits(k + 1) + ". " + steps[k]]; }
    }
    assert steps[..|steps|] == steps;
  }

  // What each section of the card adds to the lines before it.

  lemma OpeningAdded(c: Card)
    ensures Opening(c) == if c.summary == "" then ["# " + c.title] else ["# " + c.title] + ["", Strip(c.summary)]
  {
  }

  lemma GlanceAdded(lines: seq<string>, c: Card)
    ensures lines + Glance(c)
      == if HasGlance(c) then lines + ["", "## At a glance"] + GlanceFields(c) + TagLine(c.tags) else lines
  {
    hide GlanceFields, TagLine, HasGlance;
  }

  lemma BlockAdded(lines: seq<string>, heading: string, block: seq<string>)
    ensures lines + Block(heading, block) == lines + ["", "## " + heading] + block
  {
  }

  lemma NothingBehind(lines: seq<string>)
    ensures lines + [] == lines
  {
  }

  method RenderRecipeCardBody(c: Card) returns (body: string)
    ensures body == Rendered(c)
  {
    OpeningAdded(c);
    RenderedParts(c);
    hide Strip, Join, Bulleted, Numbered, Bullets, CleanLines, TagLine, GlanceFields, Rendered, HasGlance, Opening, Glance,
         Block;
    var lines := ["# " + c.title];
    if c.summary != "" { lines := lines + ["", Strip(c.summary)]; }
    ghost var before := lines;
    GlanceAdded(lines, c);
    if HasGlance(c) { lines := lines + ["", "## At a glance"] + GlanceFields(c) + TagLine(c.tags); }
    assert lines == before + Glance(c);
    before := lines;
    NothingBehind(lines);
    if c.ingredients != [] {
      var bullets := BulletLines(c.ingredients);
      BlockAdded(lines, "Ingredients", bullets);
      lines := lines + ["", "## " + "Ingredients"] + bullets;
    }
    assert lines == before + IngredientBlock(c);
    before := lines;
    NothingBehind(lines);
    if c.steps != [] {
      var numbered := NumberLines(c.steps);
      BlockAdded(lines, "Method", numbered);
      lines := lines + ["", "## " + "Method"] + numbered;
    }
    assert lines == before + MethodBlock(c);
    before := lines;
    NothingBehind(lines);
    if c.notes != "" {
      BlockAdded(lines, "Notes", [Strip(c.notes)]);
      lines := lines + ["", "## " + "Notes"] + [Strip(c.notes)];
    }
    assert lines == before + NotesBlock(c);
    before := lines;
    NothingBehind(lines);
    if c.source != "" {
      BlockAdded(lines, "Source", Bullets(CleanLines(c.source)));
      lines := lines + ["", "## " + "Source"] + Bullets(CleanLines(c.source));
    }
    assert lines == before + SourceBlock(c);
    hide IngredientBlock, MethodBlock, NotesBlock, SourceBlock;
    assert lines == Parts(c);
    body := Strip(Join("\n", lines)) + "\n";
  }

  lemma RenderedParts(c: Card)
    ensures Rendered(c) == Strip(Join("\n", Parts(c))) + "\n"
  {
  }
}
