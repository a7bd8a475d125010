/** File names for new notes: a slug of the title, with the least suffix that is still free. */
module NoteNames {
  import opened Text
  import opened Decimal

  function TrimHyphens(s: string): string
    decreases |s|
  {
    if s != "" && s[0] == '-' then TrimHyphens(s[1..])
    else if s != "" && s[|s| - 1] == '-' then TrimHyphens(s[..|s| - 1])
    else s
  }

  function Slug(value: string): string {
    var slug := TrimHyphens(Squeeze(Lower(value), '-', false));
    if slug == "" then "note" else slug
  }

  function AfterSlash(path: string): string {
    if path == "" then ""
    else if path[|path| - 1] == '/' then ""
    else AfterSlash(path[..|path| - 1]) + [path[|path| - 1]]
  }

  predicate EndsWithMd(s: string) { |s| >= 3 && s[|s| - 3..] == ".md" }

  /** The last component of a path ending in `.md`, without that suffix; a name that is nothing else keeps it. */
  function Stem(path: string): string {
    var name := AfterSlash(path);
    if |name| > 3 && EndsWithMd(name) then name[..|name| - 3] else name
  }

  function Base(title: string): string { Slug(if EndsWithMd(title) then Stem(title) else title) }

  /** The first candidate has no suffix, the others are numbered from two. */
  function Name(base: string, k: nat): string
    requires k >= 1
  {
    if k == 1 then base + ".md" else base + "-" + Digits(k) + ".md"
  }

  lemma NameDigits(base: string, k: nat)
    requires k >= 2
    ensures
      var name := Name(base, k);
      |name| > |base| + 4 && name[|base| + 1..|name| - 3] == Digits(k)
  {
  }

  lemma NameInjective(base: string, j: nat, k: nat)
    requires 1 <= j < k
    ensures Name(base, j) != Name(base, k)
  {
    hide Digits;
    NameDigits(base, k);
    if j >= 2 {
      NameDigits(base, j);
      if Name(base, j) == Name(base, k) { DigitsInjective(j, k); }
    }
  }

  /** Slugs hold only lower-case letters, digits and inner hyphens, and are never empty. */
  lemma SlugShape(value: string)
    ensures
      var slug := Slug(value);
      && slug != "" && slug[0] != '-' && slug[|slug| - 1] != '-'
      && (forall i | 0 <= i < |slug| :: AlphaNumeric(slug[i]) || slug[i] == '-')
      && (forall i | 0 <= i < |slug| - 1 :: slug[i] != '-' || slug[i + 1] != '-')
  {
    HyphenatedShape(Lower(value), false);
    TrimShape(Squeeze(Lower(value), '-', false));
  }

  predicate SlugText(s: string) {
    && (forall i | 0 <= i < |s| :: AlphaNumeric(s[i]) || s[i] == '-')
    && (forall i | 0 <= i < |s| - 1 :: s[i] != '-' || s[i + 1] != '-')
  }

  lemma {:induction false} HyphenatedShape(s: string, gap: bool)
    ensures SlugText(Squeeze(s, '-', gap))
    ensures gap && Squeeze(s, '-', gap) != "" ==> Squeeze(s, '-', gap)[0] != '-'
  {
    if s != "" {
      HyphenatedShape(s[1..], !AlphaNumeric(s[0]));
    }
  }

  lemma {:induction false} TrimShape(s: string)
    requires SlugText(s)
    ensures
      var t := TrimHyphens(s);
      SlugText(t) && (t != "" ==> t[0] != '-' && t[|t| - 1] != '-')
    decreases |s|
  {
    if s != "" && s[0] == '-' {
      TrimShape(s[1..]);
    } else if s != "" && s[|s| - 1] == '-' {
      TrimShape(s[..|s| - 1]);
    }
  }

  class NoteFolder {
    var files: map<string, string>

    constructor ()
      ensures files == map[]
    {
      files := map[];
    }

    /** The candidates before the returned one are all taken. */
    method UniqueMarkdownPath(title: string) returns (name: string, ghost k: nat)
      ensures k >= 1 && name == Name(Base(title), k) && name !in files
      ensures forall j | 1 <= j < k :: Name(Base(title), j) in files
    {
      var base := Base(title);
      name, k := base + ".md", 1;
      var suffix := 2;
      ghost var untried := files.Keys;
      while name in files
        invariant k >= 1 && suffix == k + 1 && name == Name(base, k) && untried <= files.Keys
        invariant forall j | 1 <= j < k :: Name(base, j) in files
        invariant forall x | x in files && x !in untried :: exists j :: 1 <= j < k && Name(base, j) == x
        decreases |untried|
      {
        forall j | 1 <= j < k ensures Name(base, j) != name {
          NameInjective(base, j, k);
        }
        assert name in untried;
        untried := untried - {name};
        name := base + "-" + Digits(suffix) + ".md";
        k, suffix := k + 1, suffix + 1;
      }
    }

    /** A new note never replaces another file. The name is chosen by the given file name, if there is one. */
    method CreateMarkdownNote(title: string, filename: string, frontMatter: string, body: string)
      returns (name: string)
      modifies this
      ensures name !in old(files) && files == old(files)[name := frontMatter + "\n" + Strip(body) + "\n"]
      ensures
        var base := Base(if filename != "" then filename else title);
        exists k ::
          k >= 1 && name == Name(base, k) && forall j | 1 <= j < k :: Name(base, j) in old(files)
    {
      ghost var k: nat;
      var content := frontMatter + "\n" + Strip(body) + "\n";
      name, k := UniqueMarkdownPath(if filename != "" then filename else title);
      files := files[name := content];
    }
  }
}
