/** What the parser makes of the lines a rendered recipe card is built from. */
module RecipeNames {
  import opened Prelude
  import opened Text
  import opened Lines
  import opened Decimal
  import opened RecipeCard

  predicate AllPlain(s: string) { forall i | 0 <= i < |s| :: AlphaNumeric(s[i]) }

  lemma {:induction false} SqueezeWord(word: string, rest: string, gap: bool)
    requires word != "" && AllPlain(word)
    ensures Squeeze(word + rest, ' ', gap) == word + Squeeze(rest, ' ', false)
  {
    assert (word + rest)[1..] == word[1..] + rest;
    if |word| > 1 { SqueezeWord(word[1..], rest, false); }
  }

  lemma LowerConcat(a: string, b: string)
    ensures Lower(a + b) == Lower(a) + Lower(b)
  {
  }

  lemma PlainTrimmed(s: string)
    requires s != "" && AlphaNumeric(s[0]) && AlphaNumeric(s[|s| - 1])
    ensures Trimmed(s) && Strip(s) == s
  {
    TrimmedStrip(s);
  }

  lemma OneWord(name: string, lower: string)
    requires Lower(name) == lower && lower != "" && AllPlain(lower)
    ensures Normalized(name) == lower
  {
    SqueezeWord(lower, "", false);
    assert lower + "" == lower;
    PlainTrimmed(lower);
  }

  /** A name behind a dash reads like the name itself. */
  lemma DashedWord(name: string, lower: string)
    requires Lower(name) == lower && lower != "" && AllPlain(lower)
    ensures Normalized("- " + name) == lower
  {
    LowerConcat("- ", name);
    assert Lower("- ") == "- ";
    DashedSqueeze(lower);
    SqueezeWord(lower, "", true);
    assert lower + "" == lower;
    StripLeading(lower);
  }

  lemma DashedSqueeze(s: string)
    ensures Squeeze("- " + s, ' ', false) == " " + Squeeze(s, ' ', true)
  {
    assert ("- " + s)[1..] == " " + s;
    assert (" " + s)[1..] == s;
  }

  lemma StripLeading(s: string)
    requires s != "" && Trimmed(s)
    ensures Strip(" " + s) == s
  {
    assert (" " + s)[|" " + s| - 1] == s[|s| - 1];
    assert RStrip(" " + s) == " " + s;
    assert (" " + s)[1..] == s;
    TrimmedStrip(s);
  }

  lemma SqueezeTwoWords(first: string, second: string)
    requires first != "" && second != "" && AllPlain(first) && AllPlain(second)
    ensures Squeeze(first + " " + second, ' ', true) == first + " " + second
  {
    assert first + " " + second == first + (" " + second);
    SqueezeWord(first, " " + second, true);
    assert (" " + second)[1..] == second;
    assert Squeeze(" " + second, ' ', false) == " " + Squeeze(second, ' ', true);
    SqueezeWord(second, "", true);
    assert second + "" == second && Squeeze("", ' ', false) == "";
  }

  lemma DashedTwoWords(name: string, first: string, second: string)
    requires Lower(name) == first + " " + second && first != "" && second != "" && AllPlain(first) && AllPlain(second)
    ensures Normalized("- " + name) == first + " " + second
  {
    var whole := first + " " + second;
    LowerDashed(name);
    DashedSqueeze(whole);
    SqueezeTwoWords(first, second);
    hide Squeeze, Strip;
    assert whole[0] == first[0] && whole[|whole| - 1] == second[|second| - 1];
    StripLeading(whole);
  }

  lemma LowerDashed(name: string)
    ensures Lower("- " + name) == "- " + Lower(name)
  {
  }

  lemma RenderedWords()
    ensures Normalized("Ingredients") == "ingredients" && Normalized("Method") == "method"
    ensures Normalized("Notes") == "notes" && Normalized("Source") == "source"
  {
    hide Normalized, AllPlain;
    RenderedLower();
    LowerPlain();
    hide Lower;
    OneWord("Ingredients", "ingredients");
    OneWord("Method", "method");
    OneWord("Notes", "notes");
    OneWord("Source", "source");
  }

  lemma RenderedLower()
    ensures Lower("Ingredients") == "ingredients" && Lower("Method") == "method"
    ensures Lower("Notes") == "notes" && Lower("Source") == "source"
  {
  }

  lemma LowerPlain()
    ensures AllPlain("ingredients") && AllPlain("method") && AllPlain("notes") && AllPlain("source")
  {
  }

  lemma TagsWord()
    ensures Normalized("- Tags") == "tags"
  {
    hide Normalized;
    assert "- " + "Tags" == "- Tags";
    DashedWord("Tags", "tags") by { assert Lower("Tags") == "tags"; }
  }

  /** The section names the renderer uses. */
  lemma RenderedNames()
    ensures Named("Ingredients") == Some(Ingredients) && Named("Method") == Some(Steps) && Named("Notes") == Some(Notes)
    ensures Named("Source").None? && Named("- Tags").None?
  {
    hide Normalized, SectionOf;
    RenderedWords();
    TagsWord();
    SectionNames();
  }

  lemma SectionNames()
    ensures SectionOf("ingredients") == Some(Ingredients) && SectionOf("method") == Some(Steps)
    ensures SectionOf("notes") == Some(Notes) && SectionOf("source").None? && SectionOf("tags").None?
  {
  }

  lemma FieldSections()
    ensures SectionOf("yield") == Some(Servings) && SectionOf("prep time") == Some(PrepTime)
    ensures SectionOf("cook time") == Some(CookTime) && SectionOf("total time") == Some(TotalTime)
  {
  }

  lemma FieldWords()
    ensures Normalized("- Yield") == "yield" && Normalized("- Prep time") == "prep time"
    ensures Normalized("- Cook time") == "cook time" && Normalized("- Total time") == "total time"
  {
    hide Normalized, AllPlain;
    FieldLower();
    hide Lower;
    assert "- " + "Yield" == "- Yield" && "- " + "Prep time" == "- Prep time";
    assert "- " + "Cook time" == "- Cook time" && "- " + "Total time" == "- Total time";
    DashedWord("Yield", "yield");
    TwoWordName("Prep time", "prep");
    TwoWordName("Cook time", "cook");
    TwoWordName("Total time", "total");
  }

  lemma FieldLower()
    ensures Lower("Yield") == "yield" && AllPlain("yield")
    ensures Lower("Prep time") == "prep time" == "prep" + " time" && AllPlain("prep")
    ensures Lower("Cook time") == "cook time" == "cook" + " time" && AllPlain("cook")
    ensures Lower("Total time") == "total time" == "total" + " time" && AllPlain("total")
  {
  }

  lemma FieldNames()
    ensures Named("- Yield") == Some(Servings) && Named("- Prep time") == Some(PrepTime)
    ensures Named("- Cook time") == Some(CookTime) && Named("- Total time") == Some(TotalTime)
  {
    hide Normalized, SectionOf;
    FieldWords();
    FieldSections();
  }

  lemma TwoWordName(name: string, first: string)
    requires Lower(name) == first + " time" && first != "" && AllPlain(first)
    ensures Normalized("- " + name) == first + " time"
  {
    assert first + " time" == first + " " + "time";
    DashedTwoWords(name, first, "time");
  }

  lemma StartStays(s: string)
    requires s != "" && AlphaNumeric(s[0])
    ensures Strip(s) != "" && Strip(s)[0] == s[0]
  {
    RStripHead(s);
  }

  lemma NormalizedStart(s: string)
    requires s != "" && AlphaNumeric(LowerChar(s[0]))
    ensures Normalized(s) != "" && Normalized(s)[0] == LowerChar(s[0])
  {
    StartStays(Squeeze(Lower(s), ' ', false));
  }

  lemma DashedStart(s: string)
    requires s != "" && AlphaNumeric(LowerChar(s[0]))
    ensures Normalized("- " + s) != "" && Normalized("- " + s)[0] == LowerChar(s[0])
  {
    LowerConcat("- ", s);
    assert Lower("- ") == "- ";
    DashedSqueeze(Lower(s));
    LStripAll(Squeeze(Lower(s), ' ', true), ' ');
    StartStays(Squeeze(Lower(s), ' ', true));
  }

  /** The first letters of section names. */
  lemma NameLetters(name: string)
    ensures SectionOf(name).Some? ==> name != "" && 'c' <= name[0] <= 'y'
    ensures SectionOf(name).Some? && ListSection(SectionOf(name).value) ==>
      name[0] == 'i' || name[0] == 's' || name[0] == 'd' || name[0] == 'm' || name[0] == 'n'
  {
  }

  /** Neither a heading nor anything else that would direct the parser. */
  predicate Neutral(line: string) {
    && (Heading(line).Some? ==> Named(Heading(line).value).None?)
    && Opens(line).None? && Sets(line).None?
  }

  lemma HeadingOf(hashes: string, text: string)
    requires (hashes == "#" || hashes == "##") && text != "" && Trimmed(text)
    ensures Heading(hashes + " " + text) == Some(text)
  {
    var line := hashes + " " + text;
    if hashes == "##" {
      assert line[1..][1..] == " " + text;
      assert Hashes(line[1..][1..]) == 0;
      assert Hashes(line[1..]) == 1;
    } else {
      assert line[1..] == " " + text;
      assert Hashes(line[1..]) == 0;
    }
    assert line[|hashes|..] == " " + text;
    StripLeading(text);
  }

  lemma NoHeading(line: string)
    requires line == "" || line[0] != '#'
    ensures Heading(line).None?
  {
  }

  lemma {:induction false} ColonAt(line: string, i: nat)
    requires i < |line| && line[i] == ':' && forall k | 0 <= k < i :: line[k] != ':'
    ensures Colon(line) == i
  {
    if i > 0 { ColonAt(line[1..], i - 1); }
  }

  lemma {:induction false} NoColon(line: string)
    requires forall k | 0 <= k < |line| :: line[k] != ':'
    ensures Colon(line) == |line|
  {
    if line != "" { NoColon(line[1..]); }
  }

  /** A line without a colon that is no heading directs nothing. */
  lemma ColonFree(line: string)
    requires (line != "" ==> line[0] != '#') && forall k | 0 <= k < |line| :: line[k] != ':'
    ensures Neutral(line)
  {
    NoColon(line);
    NoHeading(line);
  }

  /** The key of a line that begins with a digit begins with that digit. */
  lemma DigitLine(line: string)
    requires line != "" && Digit(line[0]) && Trimmed(line)
    ensures Neutral(line)
  {
    NoHeading(line);
    if line[|line| - 1] == ':' {
      NormalizedStart(line[..|line| - 1]);
      NameLetters(Normalized(line[..|line| - 1]));
    }
    if Colon(line) < |line| {
      var key := line[..Colon(line)];
      assert key[0] == line[0];
      RStripHead(key);
      NormalizedStart(Strip(key));
      NameLetters(Normalized(Strip(key)));
    }
  }

  /** A field line sets its field to the value it shows. */
  lemma FieldLineSets(name: string, value: string, section: Section)
    requires name != "" && Plain(value) && (forall k | 0 <= k < |name| :: name[k] != ':')
    requires Trimmed(name) && Named("- " + name) == Some(section) && !ListSection(section)
    requires AlphaNumeric(LowerChar(name[0])) && LowerChar(name[0]) !in {'i', 's', 'd', 'm', 'n'}
    ensures
      var line := "- " + name + ": " + value;
      && (OneLine(name) ==> Plain(line)) && Heading(line).None? && Opens(line).None? && Sets(line) == Some(section)
      && FieldValue(line) == value
  {
    hide SectionOf, Normalized, Strip, Colon;
    var line := "- " + name + ": " + value;
    NoHeading(line);
    assert line[|line| - 1] == value[|value| - 1];
    NotOpening(line, name) by { assert line[..|name| + 2] == "- " + name; }
    ColonAt(line, |name| + 2);
    assert line[..|name| + 2] == "- " + name;
    TrimmedStrip("- " + name);
    assert line[|name| + 3..] == " " + value;
    StripLeading(value);
    OneLineParts("- " + name + ": ", value);
  }

  /** A line that begins with a dash and such a letter opens no section. */
  lemma NotOpening(line: string, name: string)
    requires name != "" && "- " + name <= line && |line| > |name| + 2
    requires AlphaNumeric(LowerChar(name[0])) && LowerChar(name[0]) !in {'i', 's', 'd', 'm', 'n'}
    ensures Opens(line).None?
  {
    var text := line[2..|line| - 1];
    assert line[..|line| - 1] == "- " + text;
    assert text[0] == line[2] == name[0];
    DashedStart(text);
    NameLetters(Normalized("- " + text));
  }

  lemma TagLineNeutral(line: string)
    requires "- Tags:" <= line && Trimmed(line)
    ensures Neutral(line)
  {
    hide SectionOf, Normalized, Strip;
    NoHeading(line);
    RenderedNames();
    assert line[6] == "- Tags:"[6];
    assert forall k | 0 <= k < 6 :: line[k] == "- Tags:"[k];
    ColonAt(line, 6);
    assert line[..6] == "- Tags";
    TrimmedStrip("- Tags");
    if |line| == 7 {
      assert line[..|line| - 1] == "- Tags";
    } else {
      TagsOpenNothing(line) by { assert line[..6] == "- Tags"; }
    }
  }

  lemma TagsOpenNothing(line: string)
    requires "- Tags" <= line && |line| > 7
    ensures Opens(line).None?
  {
    var text := line[2..|line| - 1];
    assert line[..|line| - 1] == "- " + text;
    assert text[0] == 'T';
    DashedStart(text);
    NameLetters(Normalized("- " + text));
  }

  /** The parser recovers an item from its bullet, less a number in front of it. */
  lemma BulletItem(item: string)
    requires item != "" && Trimmed(item)
    ensures Item("- " + item) == DropNumber(item)
  {
    TrimmedStrip("- " + item);
    assert ("- " + item)[1..] == " " + item;
    assert DropDashes(" " + item) == " " + item;
    StripLeading(item);
  }

  /** The parser recovers a step from its numbered line. */
  lemma NumberedItem(n: nat, step: string)
    requires step != "" && Trimmed(step)
    ensures Item(Digits(n) + ". " + step) == step
  {
    hide Digits, Strip, DigitsEnd, DropDashes;
    var line := Digits(n) + ". " + step;
    assert line[|line| - 1] == step[|step| - 1];
    TrimmedStrip(line);
    assert line == Digits(n) + (". " + step);
    DigitsEndOf(Digits(n), ". " + step, 0);
    assert line[|Digits(n)| + 1..] == " " + step;
    StripLeading(step);
  }

  predicate NumberPrefixed(s: string) {
    var end := DigitsEnd(s, 0);
    0 < end && end + 1 < |s| && (s[end] == '.' || s[end] == ')') && Space(s[end + 1])
  }

  /** A number in front of an item is lost, and only then does the item change. */
  lemma DropNumberKeeps(s: string)
    requires s != "" && Trimmed(s)
    ensures DropNumber(s) == s <==> !NumberPrefixed(s)
    ensures DropNumber(s) != "" && Trimmed(DropNumber(s))
  {
    if NumberPrefixed(s) {
      var tail := s[DigitsEnd(s, 0) + 1..];
      assert tail[|tail| - 1] == s[|s| - 1];
      StripShorter(tail);
      StripTrims(tail);
    }
  }
}
