/** What the overlap report says about lines, window counts and the candidate as a whole. */
module OverlapReport {
  import opened Prelude
  import opened Sorting
  import opened CorpusOverlap
  import opened OverlapExactness

  function LineBreaks(text: string): nat {
    if text == "" then 0 else LineBreaks(text[..|text| - 1]) + if text[|text| - 1] == '\n' then 1 else 0
  }

  lemma {:induction false} BisectAppend(offsets: seq<nat>, last: nat, x: nat)
    requires forall k | 0 <= k < |offsets| :: offsets[k] < last
    ensures BisectRight(offsets + [last], x) ==
      if x < last then BisectRight(offsets, x)
      else if BisectRight(offsets, x) == |offsets| then |offsets| + 1 else BisectRight(offsets, x)
    ensures BisectRight(offsets, x) <= |offsets|
    ensures (forall k | 0 <= k < |offsets| :: offsets[k] <= x) ==> BisectRight(offsets, x) == |offsets|
  {
    if offsets == [] {
      assert [last][1..] == [];
    } else {
      assert (offsets + [last])[1..] == offsets[1..] + [last];
      BisectAppend(offsets[1..], last, x);
    }
  }

  /** Bisecting the line-break offsets counts the line breaks up to and including `x`. */
  lemma {:induction false} BisectCountsBreaks(text: string, x: nat)
    requires x < |text|
    ensures BisectRight(Newlines(text), x) == LineBreaks(text[..x + 1])
  {
    var n := |text| - 1;
    var before := Newlines(text[..n]);
    BisectAppend(before, n, x);
    assert before + [] == before;
    if x < n {
      BisectCountsBreaks(text[..n], x);
      assert text[..n][..x + 1] == text[..x + 1];
    } else {
      assert text[..x + 1] == text;
      assert forall k | 0 <= k < |before| :: before[k] <= x;
      BreaksCounted(text[..n]);
    }
  }

  lemma {:induction false} BreaksCounted(text: string)
    ensures |Newlines(text)| == LineBreaks(text)
  {
    if text != "" { BreaksCounted(text[..|text| - 1]); }
  }

  lemma {:induction false} BreaksMonotone(text: string, i: nat, j: nat)
    requires i <= j <= |text|
    ensures LineBreaks(text[..i]) <= LineBreaks(text[..j])
    decreases j
  {
    if i < j {
      BreaksMonotone(text, i, j - 1);
      assert text[..j][..j - 1] == text[..j - 1];
    }
  }

  lemma {:induction false} TokensAscending(word: Alphabet, text: string, i: nat, j: nat, k: nat)
    requires i <= |text| && j <= k < |Tokens(word, text, i)|
    ensures Tokens(word, text, i)[j].start <= Tokens(word, text, i)[k].start
    decreases |text| - i
  {
    if i < |text| {
      if word(text[i]) {
        var end := WordEnd(word, text, i + 1);
        if j > 0 { TokensAscending(word, text, end, j - 1, k - 1); }
      } else {
        TokensAscending(word, text, i + 1, j, k);
      }
    }
  }

  /** A word's line is one more than the line breaks in front of it, and lines never decrease. */
  lemma WordLines(word: Alphabet, text: string, j: nat, k: nat)
    requires j <= k < |WordLocations(word, text)|
    ensures var t := Tokens(word, text, 0)[j];
      WordLocations(word, text)[j].line == 1 + LineBreaks(text[..t.start + 1])
    ensures WordLocations(word, text)[j].line <= WordLocations(word, text)[k].line
  {
    hide BisectRight, Newlines, Tokens, Straighten;
    var t, u := Tokens(word, text, 0)[j], Tokens(word, text, 0)[k];
    BisectCountsBreaks(text, t.start);
    BisectCountsBreaks(text, u.start);
    TokensAscending(word, text, 0, j, k);
    BreaksMonotone(text, t.start + 1, u.start + 1);
  }

  lemma RunFits(digest: Digest, private: set<string>, words: seq<Word>, n: nat, k: nat)
    requires n >= 1 && k < |Coalesce(MatchingIndexes(digest, private, Values(words), n))|
    ensures Fits(words, n, Coalesce(MatchingIndexes(digest, private, Values(words), n))[k])
  {
    IndexesFit(digest, private, words, n);
    hide Coalesce, MatchingIndexes, Values, Fits;
    CoalesceFits(words, n, MatchingIndexes(digest, private, Values(words), n));
  }

  lemma RunLines(digest: Digest, word: Alphabet, item: Object, n: nat, path: Option<string>, run: Run)
    requires n >= 1 && Fits(WordLocations(word, item.text), n, run)
    ensures
      var x := MatchOf(digest, item, WordLocations(word, item.text), n, path, run);
      x.startLine <= x.endLine && x.windows >= 1
  {
    hide WordLocations;
    WordLines(word, item.text, run.first, run.last + n - 1);
  }

  /** No report ends before it starts, and each covers at least one window. */
  lemma ReportedLines(digest: Digest, word: Alphabet, item: Object, private: set<string>, n: nat, x: Match)
    requires n >= 1 && x in ObjectMatches(digest, word, item, private, n)
    ensures x.startLine <= x.endLine && x.windows >= 1
  {
    hide WordLocations, Locations, Coalesce, MatchingIndexes, MatchesAll, Tokens, Values, Fits, MatchOf;
    var words := WordLocations(word, item.text);
    var runs := Coalesce(MatchingIndexes(digest, private, Values(words), n));
    forall k | 0 <= k < |runs| ensures Fits(words, n, runs[k]) {
      RunFits(digest, private, words, n, k);
    }
    MatchesCount(digest, item, words, n, Locations(item), runs);
    var p, k :| 0 <= p < |Locations(item)| && 0 <= k < |runs|
      && x == MatchOf(digest, item, words, n, Locations(item)[p], runs[k]);
    RunLines(digest, word, item, n, Locations(item)[p], runs[k]);
  }

  lemma IndexesFit(digest: Digest, private: set<string>, words: seq<Word>, n: nat)
    ensures Ascending(MatchingIndexes(digest, private, Values(words), n))
    ensures forall k | 0 <= k < |MatchingIndexes(digest, private, Values(words), n)| ::
      MatchingIndexes(digest, private, Values(words), n)[k] < WindowCount(Values(words), n)
  {
  }

  function Lengths(runs: seq<Run>): int {
    if runs == [] then 0
    else Lengths(runs[..|runs| - 1]) + runs[|runs| - 1].last - runs[|runs| - 1].first + 1
  }

  /** The runs hold as many windows as there are matching indexes. */
  lemma {:induction false} RunLengths(indexes: seq<nat>)
    ensures Lengths(Coalesce(indexes)) == |indexes|
  {
    if indexes != [] {
      var n := |indexes| - 1;
      var runs, all := Coalesce(indexes[..n]), Coalesce(indexes);
      RunLengths(indexes[..n]);
      assert all[..|all| - 1] == runs || all[..|all| - 1] == runs[..|runs| - 1];
    }
  }

  lemma {:induction false} TotalConcat(a: seq<Match>, b: seq<Match>)
    ensures TotalMatched(a + b) == TotalMatched(a) + TotalMatched(b)
  {
    if a == [] {
      assert a + b == b;
    } else {
      assert (a + b)[1..] == a[1..] + b;
      TotalConcat(a[1..], b);
    }
  }

  lemma {:induction false} TotalAt(
      digest: Digest, item: Object, words: seq<Word>, n: nat, path: Option<string>, runs: seq<Run>)
    requires forall k | 0 <= k < |runs| :: Fits(words, n, runs[k])
    ensures TotalMatched(MatchesAt(digest, item, words, n, path, runs)) == Lengths(runs)
  {
    if runs != [] {
      var m := |runs| - 1;
      var last := MatchOf(digest, item, words, n, path, runs[m]);
      assert MatchesAt(digest, item, words, n, path, runs) == MatchesAt(digest, item, words, n, path, runs[..m]) + [last];
      TotalAt(digest, item, words, n, path, runs[..m]);
      TotalConcat(MatchesAt(digest, item, words, n, path, runs[..m]), [last]);
    }
  }

  lemma {:induction false} TotalAll(
      digest: Digest, item: Object, words: seq<Word>, n: nat, paths: seq<Option<string>>, runs: seq<Run>)
    requires forall k | 0 <= k < |runs| :: Fits(words, n, runs[k])
    ensures TotalMatched(MatchesAll(digest, item, words, n, paths, runs)) == |paths| * Lengths(runs)
  {
    hide MatchOf, Fits, Lengths;
    if paths != [] {
      var last := |paths| - 1;
      assert |paths| * Lengths(runs) == last * Lengths(runs) + Lengths(runs);
      TotalAll(digest, item, words, n, paths[..last], runs);
      TotalAt(digest, item, words, n, paths[last], runs);
      TotalConcat(MatchesAll(digest, item, words, n, paths[..last], runs),
                  MatchesAt(digest, item, words, n, paths[last], runs));
    }
  }

  /** The window counts of an object add up to its locations times its matching windows. */
  lemma ObjectTotal(digest: Digest, word: Alphabet, item: Object, private: set<string>, n: nat)
    requires n >= 1
    ensures TotalMatched(ObjectMatches(digest, word, item, private, n))
      == |Locations(item)| * |MatchingIndexes(digest, private, NormalizedWords(word, item.text), n)|
  {
    var words := WordLocations(word, item.text);
    var indexes := MatchingIndexes(digest, private, Values(words), n);
    hide WordLocations, Locations;
    CoalesceFits(words, n, indexes);
    hide MatchingIndexes;
    TotalAll(digest, item, words, n, Locations(item), Coalesce(indexes));
    RunLengths(indexes);
  }

  lemma {:induction false} TotalInsert(x: Match, s: seq<Match>)
    ensures TotalMatched(Insert(MatchLe, x, s)) == x.windows + TotalMatched(s)
  {
    if s == [] || MatchLe(x, s[0]) {
      assert ([x] + s)[1..] == s;
    } else {
      TotalInsert(x, s[1..]);
      assert ([s[0]] + Insert(MatchLe, x, s[1..]))[1..] == Insert(MatchLe, x, s[1..]);
    }
  }

  lemma {:induction false} TotalSorted(s: seq<Match>)
    ensures TotalMatched(Sort(MatchLe, s)) == TotalMatched(s)
  {
    if s != [] {
      TotalSorted(s[1..]);
      TotalInsert(s[0], Sort(MatchLe, s[1..]));
    }
  }

  lemma MatchOrder()
    ensures TotalPreorder(MatchLe)
  {
    forall a, b ensures MatchLe(a, b) || MatchLe(b, a) {
      if a.path.Some? && b.path.Some? { StringLeTotal(a.path.value, b.path.value); }
      StringLeTotal(a.span, b.span);
    }
    forall a, b, c | MatchLe(a, b) && MatchLe(b, c) ensures MatchLe(a, c) {
      MatchLeTransitive(a, b, c);
    }
  }

  lemma MatchLeTransitive(a: Match, b: Match, c: Match)
    requires MatchLe(a, b) && MatchLe(b, c)
    ensures MatchLe(a, c)
  {
    if a.path.Some? && b.path.Some? && c.path.Some? {
      if a.path != b.path && b.path != c.path {
        StringLeTransitive(a.path.value, b.path.value, c.path.value);
        StringLeTotal(a.path.value, b.path.value);
      }
    }
    if StringLe(a.span, b.span) && StringLe(b.span, c.span) { StringLeTransitive(a.span, b.span, c.span); }
  }

  function TotalPerObject(digest: Digest, word: Alphabet, items: seq<Object>, private: set<string>, n: nat): nat {
    if items == [] then 0
    else
      var item := items[|items| - 1];
      TotalPerObject(digest, word, items[..|items| - 1], private, n)
      + |Locations(item)| * |MatchingIndexes(digest, private, NormalizedWords(word, item.text), n)|
  }

  lemma {:induction false} ScanTotal(digest: Digest, word: Alphabet, items: seq<Object>, private: set<string>, n: nat)
    requires n >= 1
    ensures TotalMatched(Unsorted(digest, word, items, private, n)) == TotalPerObject(digest, word, items, private, n)
  {
    if items != [] {
      var last := |items| - 1;
      ScanTotal(digest, word, items[..last], private, n);
      ObjectTotal(digest, word, items[last], private, n);
      TotalConcat(Unsorted(digest, word, items[..last], private, n), ObjectMatches(digest, word, items[last], private, n));
    }
  }

  lemma {:induction false} UnsortedFound(digest: Digest, word: Alphabet, items: seq<Object>, private: set<string>, n: nat)
    requires n >= 1
    ensures Unsorted(digest, word, items, private, n) != [] <==>
      exists k :: 0 <= k < |items| && ObjectMatches(digest, word, items[k], private, n) != []
  {
    hide ObjectMatches;
    if items != [] {
      var last := |items| - 1;
      UnsortedFound(digest, word, items[..last], private, n);
      if k :| 0 <= k < last && ObjectMatches(digest, word, items[..last][k], private, n) != [] {
        assert ObjectMatches(digest, word, items[k], private, n) != [];
      }
      if k :| 0 <= k < |items| && ObjectMatches(digest, word, items[k], private, n) != [] && k < last {
        assert ObjectMatches(digest, word, items[..last][k], private, n) != [];
      }
    }
  }

  /** The report as `ScanCandidate` returns it: sorted, with every match kept and all windows counted. */
  lemma ScanReport(digest: Digest, word: Alphabet, items: seq<Object>, private: set<string>, n: nat)
    requires n >= 1
    ensures
      var found := Unsorted(digest, word, items, private, n);
      var report := Sort(MatchLe, found);
      && SortedBy(MatchLe, report) && multiset(report) == multiset(found)
      && TotalMatched(report) == TotalPerObject(digest, word, items, private, n)
  {
    var found := Unsorted(digest, word, items, private, n);
    MatchOrder();
    SortSorted(MatchLe, found);
    SortPermutes(MatchLe, found);
    TotalSorted(found);
    ScanTotal(digest, word, items, private, n);
  }

  /** The scan passes iff no object shares n consecutive words with a private message. */
  lemma ScanExact(digest: Digest, word: Alphabet, items: seq<Object>, messages: seq<string>, n: nat)
    requires n >= 1
    requires forall k | 0 <= k < |items| :: CollisionFree(digest, AllWindows(word, items[k].text, messages, n))
    ensures
      Sort(MatchLe, Unsorted(digest, word, items, Fingerprints(digest, word, messages, n), n)) == []
      <==> forall k | 0 <= k < |items| :: !Overlaps(word, items[k].text, messages, n)
  {
    hide Overlaps, Fingerprints, AllWindows, ObjectMatches;
    var private := Fingerprints(digest, word, messages, n);
    var found := Unsorted(digest, word, items, private, n);
    SortPermutes(MatchLe, found);
    UnsortedFound(digest, word, items, private, n);
    forall k | 0 <= k < |items|
      ensures ObjectMatches(digest, word, items[k], private, n) != [] <==> Overlaps(word, items[k].text, messages, n)
    {
      DetectorExact(digest, word, items[k], messages, n);
    }
  }
}
