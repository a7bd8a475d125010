/** The string operations of Python that the parsers and printers use. */
module Text {
  import Decimal

  /** `str.isspace` */
  predicate Space(c: char) {
    || '\t' <= c <= '\r' || '\U{1C}' <= c <= ' ' || c == '\U{85}' || c == '\U{A0}' || c == '\U{1680}'
    || '\U{2000}' <= c <= '\U{200A}' || c == '\U{2028}' || c == '\U{2029}' || c == '\U{202F}' || c == '\U{205F}'
    || c == '\U{3000}'
  }

  /** The characters `splitlines` breaks at. */
  predicate Break(c: char) {
    || '\n' <= c <= '\r' || '\U{1C}' <= c <= '\U{1E}' || c == '\U{85}' || c == '\U{2028}' || c == '\U{2029}'
  }

  function LStrip(s: string): string {
    if s != "" && Space(s[0]) then LStrip(s[1..]) else s
  }

  function RStrip(s: string): string {
    if s != "" && Space(s[|s| - 1]) then RStrip(s[..|s| - 1]) else s
  }

  function Strip(s: string): string { LStrip(RStrip(s)) }

  /** No white space at either end. */
  predicate Trimmed(s: string) { s != "" ==> !Space(s[0]) && !Space(s[|s| - 1]) }

  lemma TrimmedStrip(s: string)
    requires Trimmed(s)
    ensures Strip(s) == s && LStrip(s) == s && RStrip(s) == s
  {
  }

  lemma {:induction false} StripTrims(s: string)
    ensures Trimmed(Strip(s))
  {
    RStripEnd(s);
    LStripStart(RStrip(s));
  }

  lemma {:induction false} RStripEnd(s: string)
    ensures RStrip(s) != "" ==> !Space(RStrip(s)[|RStrip(s)| - 1])
  {
    if s != "" && Space(s[|s| - 1]) { RStripEnd(s[..|s| - 1]); }
  }

  lemma {:induction false} LStripStart(s: string)
    ensures LStrip(s) != "" ==> !Space(LStrip(s)[0]) && LStrip(s)[|LStrip(s)| - 1] == s[|s| - 1]
  {
    if s != "" && Space(s[0]) { LStripStart(s[1..]); }
  }

  function LowerChar(c: char): char { if 'A' <= c <= 'Z' then c - 'A' + 'a' else c }

  function Lower(s: string): (r: string)
    ensures |r| == |s|
    ensures forall i | 0 <= i < |s| :: r[i] == LowerChar(s[i])
  {
    seq(|s|, i requires 0 <= i < |s| => LowerChar(s[i]))
  }

  /** The parts of `s` between occurrences of `c`. */
  function Split(s: string, c: char): (parts: seq<string>)
    ensures parts != []
  {
    if s == "" then [""]
    else if s[0] == c then [""] + Split(s[1..], c)
    else
      var rest := Split(s[1..], c);
      [[s[0]] + rest[0]] + rest[1..]
  }

  predicate Contains(s: string, part: string) {
    exists i | 0 <= i <= |s| :: part <= s[i..]
  }

  predicate AlphaNumeric(c: char) { 'a' <= c <= 'z' || Decimal.Digit(c) }

  /** Every run of characters that are neither lower-case letters nor digits becomes one separator. */
  function Squeeze(s: string, separator: char, gap: bool): string {
    if s == "" then ""
    else if AlphaNumeric(s[0]) then [s[0]] + Squeeze(s[1..], separator, false)
    else (if gap then "" else [separator]) + Squeeze(s[1..], separator, true)
  }

  lemma {:induction false} StripShorter(s: string)
    ensures |Strip(s)| <= |s|
    ensures s != "" && !Space(s[|s| - 1]) ==> Strip(s) != ""
  {
    RStripShorter(s);
    LStripShorter(RStrip(s));
  }

  lemma {:induction false} RStripShorter(s: string)
    ensures |RStrip(s)| <= |s|
  {
    if s != "" && Space(s[|s| - 1]) { RStripShorter(s[..|s| - 1]); }
  }

  lemma {:induction false} LStripShorter(s: string)
    ensures |LStrip(s)| <= |s|
    ensures s != "" && !Space(s[|s| - 1]) ==> LStrip(s) != ""
  {
    if s != "" && Space(s[0]) { LStripShorter(s[1..]); }
  }
}
