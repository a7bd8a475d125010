/** Exact n-word overlap between a public candidate object and private messages. */
module CorpusOverlap {
  import opened Prelude
  import Lines
  import opened Sorting

  /** The characters a word is made of; a space is never one of them. */
  type Alphabet = word: char -> bool | !word(' ') witness _ => false

  /** The keyed digest of a window or span, for the key of one audit run. */
  type Digest = string -> string

  datatype Token = Token(start: nat, end: nat)

  /** Where a word that has been read up to `i` ends: apostrophes continue it when a word character follows. */
  function WordEnd(word: Alphabet, text: string, i: nat): (end: nat)
    requires i <= |text|
    ensures i <= end <= |text|
    decreases |text| - i
  {
    if i < |text| && word(text[i]) then WordEnd(word, text, i + 1)
    else if i + 1 < |text| && Apostrophe(text[i]) && word(text[i + 1]) then WordEnd(word, text, i + 2)
    else i
  }

  predicate Apostrophe(c: char) { c == '\'' || c == '\U{2019}' }

  /** The successive words of the text from position `i` on. */
  function Tokens(word: Alphabet, text: string, i: nat): (tokens: seq<Token>)
    requires i <= |text|
    ensures forall k | 0 <= k < |tokens| :: i <= tokens[k].start < tokens[k].end <= |text|
    decreases |text| - i
  {
    if i == |text| then []
    else if word(text[i]) then
      var end := WordEnd(word, text, i + 1);
      [Token(i, end)] + Tokens(word, text, end)
    else Tokens(word, text, i + 1)
  }

  function Straighten(s: string): (r: string)
    ensures |r| == |s|
    ensures forall i | 0 <= i < |s| :: r[i] == if s[i] == '\U{2019}' then '\'' else s[i]
  {
    seq(|s|, i requires 0 <= i < |s| => if s[i] == '\U{2019}' then '\'' else s[i])
  }

  /** Offsets of the line breaks in the text. */
  function Newlines(text: string): (offsets: seq<nat>)
    ensures forall k | 0 <= k < |offsets| :: offsets[k] < |text|
  {
    if text == "" then []
    else
      var n := |text| - 1;
      Newlines(text[..n]) + if text[n] == '\n' then [n] else []
  }

  /** Where `x` goes in an ascending list: behind all elements that are not larger. */
  function BisectRight(offsets: seq<nat>, x: nat): nat {
    if offsets == [] || offsets[0] > x then 0 else 1 + BisectRight(offsets[1..], x)
  }

  datatype Word = Word(value: string, line: nat)

  function WordLocations(word: Alphabet, text: string): seq<Word> {
    var tokens, newlines := Tokens(word, text, 0), Newlines(text);
    seq(|tokens|, k requires 0 <= k < |tokens| =>
      Word(Straighten(text[tokens[k].start..tokens[k].end]), BisectRight(newlines, tokens[k].start) + 1))
  }

  function Values(words: seq<Word>): seq<string> { seq(|words|, i requires 0 <= i < |words| => words[i].value) }

  function NormalizedWords(word: Alphabet, text: string): seq<string> { Values(WordLocations(word, text)) }

  function WindowCount(words: seq<string>, n: nat): nat {
    if |words| < n then 0 else |words| - n + 1
  }

  function Window(words: seq<string>, n: nat, i: nat): string
    requires i < WindowCount(words, n)
  {
    Lines.Join(" ", words[i..i + n])
  }

  function WindowDigests(digest: Digest, words: seq<string>, n: nat): set<string> {
    set i | 0 <= i < WindowCount(words, n) :: digest(Window(words, n, i))
  }

  /** The digests of all n-word windows of all messages. */
  function Fingerprints(digest: Digest, word: Alphabet, messages: seq<string>, n: nat): set<string> {
    if messages == [] then {}
    else
      var last := |messages| - 1;
      Fingerprints(digest, word, messages[..last], n)
      + WindowDigests(digest, NormalizedWords(word, messages[last]), n)
  }

  datatype PrivateCounts = PrivateCounts(messages: nat, eligible: nat, windows: nat, unique: nat)

  function Eligible(word: Alphabet, messages: seq<string>, n: nat): nat {
    if messages == [] then 0
    else
      var last := |messages| - 1;
      Eligible(word, messages[..last], n)
      + if |NormalizedWords(word, messages[last])| < n then 0 else 1
  }

  function TotalWindows(word: Alphabet, messages: seq<string>, n: nat): nat {
    if messages == [] then 0
    else
      var last := |messages| - 1;
      TotalWindows(word, messages[..last], n) + WindowCount(NormalizedWords(word, messages[last]), n)
  }

  method DigestWindows(digest: Digest, words: seq<string>, n: nat) returns (digests: set<string>, windows: nat)
    ensures digests == WindowDigests(digest, words, n) && windows == WindowCount(words, n)
  {
    digests, windows := {}, 0;
    for i := 0 to WindowCount(words, n)
      invariant windows == i
      invariant digests == set k | 0 <= k < i :: digest(Window(words, n, k))
    {
      windows := windows + 1;
      digests := digests + {digest(Window(words, n, i))};
    }
  }

  method PrivateFingerprints(digest: Digest, word: Alphabet, messages: seq<string>, n: nat)
    returns (fingerprints: set<string>, counts: PrivateCounts)
    ensures fingerprints == Fingerprints(digest, word, messages, n)
    ensures counts == PrivateCounts(|messages|, Eligible(word, messages, n), TotalWindows(word, messages, n), |fingerprints|)
  {
    hide NormalizedWords, WindowDigests;
    fingerprints := {};
    var eligible, windows := 0, 0;
    for m := 0 to |messages|
      invariant fingerprints == Fingerprints(digest, word, messages[..m], n)
      invariant eligible == Eligible(word, messages[..m], n) && windows == TotalWindows(word, messages[..m], n)
    {
      assert messages[..m + 1][..m] == messages[..m];
      var words := NormalizedWords(word, messages[m]);
      if |words| < n {
        ShortMessage(digest, words, n);
        continue;
      }
      eligible := eligible + 1;
      var digests, count := DigestWindows(digest, words, n);
      windows := windows + count;
      fingerprints := fingerprints + digests;
    }
    assert messages[..|messages|] == messages;
    counts := PrivateCounts(|messages|, eligible, windows, |fingerprints|);
  }

  lemma ShortMessage(digest: Digest, words: seq<string>, n: nat)
    requires |words| < n
    ensures WindowDigests(digest, words, n) == {} && WindowCount(words, n) == 0
  {
  }

  /** The window starts below `limit` whose digest is among the private ones, in ascending order. */
  function Matching(digest: Digest, private: set<string>, words: seq<string>, n: nat, limit: nat): (r: seq<nat>)
    requires limit <= WindowCount(words, n)
    ensures forall k | 0 <= k < |r| :: r[k] < limit
    ensures forall j, k | 0 <= j < k < |r| :: r[j] < r[k]
    ensures forall i | 0 <= i < limit :: i in r <==> digest(Window(words, n, i)) in private
  {
    if limit == 0 then []
    else
      Matching(digest, private, words, n, limit - 1)
      + if digest(Window(words, n, limit - 1)) in private then [limit - 1] else []
  }

  function MatchingIndexes(digest: Digest, private: set<string>, words: seq<string>, n: nat): seq<nat> {
    Matching(digest, private, words, n, WindowCount(words, n))
  }

  /** A block of consecutive matching window starts. */
  datatype Run = Run(first: nat, last: nat)

  function Coalesce(indexes: seq<nat>): (runs: seq<Run>)
    ensures indexes == [] ==> runs == []
    ensures indexes != [] ==> runs != [] && runs[|runs| - 1].last == indexes[|indexes| - 1]
  {
    if indexes == [] then []
    else
      var n := |indexes| - 1;
      var runs := Coalesce(indexes[..n]);
      if runs != [] && indexes[n] == runs[|runs| - 1].last + 1
      then runs[..|runs| - 1] + [Run(runs[|runs| - 1].first, indexes[n])]
      else runs + [Run(indexes[n], indexes[n])]
  }

  method CoalesceRuns(indexes: seq<nat>) returns (runs: seq<Run>)
    requires indexes != []
    ensures runs == Coalesce(indexes)
  {
    runs := [];
    var start, previous := indexes[0], indexes[0];
    assert indexes[..1] == [indexes[0]];
    for k := 1 to |indexes|
      invariant runs + [Run(start, previous)] == Coalesce(indexes[..k])
    {
      assert indexes[..k + 1][..k] == indexes[..k];
      if indexes[k] == previous + 1 {
        previous := indexes[k];
        continue;
      }
      runs := runs + [Run(start, previous)];
      start, previous := indexes[k], indexes[k];
    }
    runs := runs + [Run(start, previous)];
    assert indexes[..|indexes|] == indexes;
  }

  datatype Object = Object(kind: string, fingerprint: string, size: nat, text: string, paths: seq<string>)

  datatype Match = Match(
    path: Option<string>, kind: string, blob: string, startLine: nat, endLine: nat, windows: nat, span: string)

  /** An object without a path is reported once, without one. */
  function Locations(item: Object): (r: seq<Option<string>>)
    ensures r != []
  {
    if item.paths == [] then [None] else seq(|item.paths|, i requires 0 <= i < |item.paths| => Some(item.paths[i]))
  }

  /** The run lies inside the words of the object. */
  predicate Fits(words: seq<Word>, n: nat, run: Run) { n >= 1 && run.first <= run.last && run.last + n <= |words| }

  function MatchOf(digest: Digest, item: Object, words: seq<Word>, n: nat, path: Option<string>, run: Run): Match
    requires Fits(words, n, run)
  {
    var finalWord := run.last + n - 1;
    Match(path, item.kind, item.fingerprint, words[run.first].line, words[finalWord].line,
          run.last - run.first + 1, digest(Lines.Join(" ", Values(words[run.first..finalWord + 1]))))
  }

  function MatchesAt(digest: Digest, item: Object, words: seq<Word>, n: nat, path: Option<string>, runs: seq<Run>)
    : (r: seq<Match>)
    requires forall k | 0 <= k < |runs| :: Fits(words, n, runs[k])
    ensures |r| == |runs|
  {
    seq(|runs|, k requires 0 <= k < |runs| => MatchOf(digest, item, words, n, path, runs[k]))
  }

  function MatchesAll(digest: Digest, item: Object, words: seq<Word>, n: nat, paths: seq<Option<string>>, runs: seq<Run>)
    : seq<Match>
    requires forall k | 0 <= k < |runs| :: Fits(words, n, runs[k])
  {
    if paths == [] then []
    else
      var last := |paths| - 1;
      MatchesAll(digest, item, words, n, paths[..last], runs) + MatchesAt(digest, item, words, n, paths[last], runs)
  }

  function ObjectMatches(digest: Digest, word: Alphabet, item: Object, private: set<string>, n: nat): seq<Match>
    requires n >= 1
  {
    var words := WordLocations(word, item.text);
    var indexes := MatchingIndexes(digest, private, Values(words), n);
    CoalesceFits(words, n, indexes);
    MatchesAll(digest, item, words, n, Locations(item), Coalesce(indexes))
  }

  method FindObjectMatches(digest: Digest, word: Alphabet, item: Object, private: set<string>, n: nat)
    returns (matches: seq<Match>)
    requires n >= 1
    ensures matches == ObjectMatches(digest, word, item, private, n)
  {
    var words := WordLocations(word, item.text);
    var values := Values(words);
    var indexes: seq<nat> := [];
    for i := 0 to WindowCount(values, n)
      invariant indexes == Matching(digest, private, values, n, i)
    {
      if digest(Window(values, n, i)) in private { indexes := indexes + [i]; }
    }
    hide Locations, MatchesAll;
    if indexes == [] {
      NoRunsNoMatches(digest, item, words, n, Locations(item));
      return [];
    }
    CoalesceFits(words, n, indexes);
    var runs := CoalesceRuns(indexes);
    matches := ReportRuns(digest, item, words, n, runs);
  }

  method ReportRuns(digest: Digest, item: Object, words: seq<Word>, n: nat, runs: seq<Run>) returns (matches: seq<Match>)
    requires forall k | 0 <= k < |runs| :: Fits(words, n, runs[k])
    ensures matches == MatchesAll(digest, item, words, n, Locations(item), runs)
  {
    hide Locations, MatchOf, Fits;
    matches := [];
    var locations := Locations(item);
    for l := 0 to |locations|
      invariant matches == MatchesAll(digest, item, words, n, locations[..l], runs)
    {
      assert locations[..l + 1][..l] == locations[..l];
      ghost var before := matches;
      for k := 0 to |runs|
        invariant matches == before + MatchesAt(digest, item, words, n, locations[l], runs)[..k]
      {
        matches := matches + [MatchOf(digest, item, words, n, locations[l], runs[k])];
      }
    }
    assert locations[..|locations|] == locations;
  }

  lemma {:induction false} NoRunsNoMatches(
      digest: Digest, item: Object, words: seq<Word>, n: nat, paths: seq<Option<string>>)
    ensures MatchesAll(digest, item, words, n, paths, []) == []
  {
    if paths != [] { NoRunsNoMatches(digest, item, words, n, paths[..|paths| - 1]); }
  }

  ghost predicate Ascending(indexes: seq<nat>) { forall j, k | 0 <= j < k < |indexes| :: indexes[j] < indexes[k] }

  /** The index lies in one of the runs. */
  ghost predicate Covered(runs: seq<Run>, i: nat) {
    exists k :: 0 <= k < |runs| && runs[k].first <= i <= runs[k].last
  }

  lemma CoveredAt(runs: seq<Run>, i: nat, k: nat)
    requires k < |runs| && runs[k].first <= i <= runs[k].last
    ensures Covered(runs, i)
  {
  }

  /** The runs are exactly the maximal blocks of consecutive indexes, in order. */
  ghost predicate Partition(indexes: seq<nat>, runs: seq<Run>) {
    && (forall k | 0 <= k < |runs| :: runs[k].first <= runs[k].last)
    && (forall k | 0 < k < |runs| :: runs[k - 1].last + 1 < runs[k].first)
    && (forall k, i | 0 <= k < |runs| && runs[k].first <= i <= runs[k].last :: i in indexes)
    && (forall i | i in indexes :: Covered(runs, i))
  }

  lemma {:induction false} RunsApart(indexes: seq<nat>, runs: seq<Run>, j: nat, k: nat)
    requires Partition(indexes, runs) && j < k < |runs|
    ensures runs[j].last + 1 < runs[k].first
    decreases k
  {
    if j + 1 < k {
      RunsApart(indexes, runs, j, k - 1);
    }
  }

  lemma RunExtended(indexes: seq<nat>, runs: seq<Run>, x: nat)
    requires Partition(indexes, runs) && runs != [] && runs[|runs| - 1].last + 1 == x
    ensures Partition(indexes + [x], runs[..|runs| - 1] + [Run(runs[|runs| - 1].first, x)])
  {
    var m := |runs| - 1;
    var all := runs[..m] + [Run(runs[m].first, x)];
    forall i | i in indexes + [x] ensures Covered(all, i) {
      if i == x {
        CoveredAt(all, i, m);
      } else {
        assert i in indexes;
        var k :| 0 <= k < |runs| && runs[k].first <= i <= runs[k].last;
        CoveredAt(all, i, k);
      }
    }
    hide Covered;
    forall k, i | 0 <= k < |all| && all[k].first <= i <= all[k].last ensures i in indexes + [x] {
      if i != x { assert runs[k].first <= i <= runs[k].last; }
    }
  }

  lemma RunStarted(indexes: seq<nat>, runs: seq<Run>, x: nat)
    requires Partition(indexes, runs) && (runs != [] ==> runs[|runs| - 1].last + 1 < x)
    ensures Partition(indexes + [x], runs + [Run(x, x)])
  {
    var m := |runs|;
    var all := runs + [Run(x, x)];
    forall i | i in indexes + [x] ensures Covered(all, i) {
      if i == x {
        CoveredAt(all, i, m);
      } else {
        assert i in indexes;
        var k :| 0 <= k < |runs| && runs[k].first <= i <= runs[k].last;
        CoveredAt(all, i, k);
      }
    }
    hide Covered;
    forall k, i | 0 <= k < |all| && all[k].first <= i <= all[k].last ensures i in indexes + [x] {
      if k < m { assert runs[k].first <= i <= runs[k].last; }
    }
  }

  lemma NothingToPartition()
    ensures Partition([], [])
  {
  }

  /** The coalescing loop yields the maximal blocks of its ascending input. */
  lemma {:induction false} CoalescePartition(indexes: seq<nat>)
    requires Ascending(indexes)
    ensures Partition(indexes, Coalesce(indexes))
  {
    if indexes == [] {
      NothingToPartition();
    } else {
      hide Partition;
      var n := |indexes| - 1;
      var runs := Coalesce(indexes[..n]);
      assert indexes == indexes[..n] + [indexes[n]] && Ascending(indexes[..n]);
      CoalescePartition(indexes[..n]);
      if runs != [] && indexes[n] == runs[|runs| - 1].last + 1 {
        RunExtended(indexes[..n], runs, indexes[n]);
      } else {
        assert n > 0 ==> indexes[n - 1] < indexes[n];
        RunStarted(indexes[..n], runs, indexes[n]);
      }
    }
  }

  lemma CoalesceFits(words: seq<Word>, n: nat, indexes: seq<nat>)
    requires n >= 1 && Ascending(indexes)
    requires forall k | 0 <= k < |indexes| :: indexes[k] < WindowCount(Values(words), n)
    ensures forall k | 0 <= k < |Coalesce(indexes)| :: Fits(words, n, Coalesce(indexes)[k])
  {
    var runs := Coalesce(indexes);
    CoalescePartition(indexes);
    forall k | 0 <= k < |runs| ensures Fits(words, n, runs[k]) {
      assert runs[k].last in indexes;
    }
  }

  /** Reports are ordered by path, objects without one last, then by first line and by span digest. */
  predicate MatchLe(a: Match, b: Match) {
    if a.path.None? != b.path.None? then b.path.None?
    else if a.path != b.path then StringLe(a.path.value, b.path.value)
    else if a.startLine != b.startLine then a.startLine < b.startLine
    else StringLe(a.span, b.span)
  }

  function TotalMatched(matches: seq<Match>): nat {
    if matches == [] then 0 else matches[0].windows + TotalMatched(matches[1..])
  }

  datatype ScanCounts = ScanCounts(objects: nat, blobs: nat, bytes: nat, spans: nat, windows: nat)

  function Unsorted(digest: Digest, word: Alphabet, items: seq<Object>, private: set<string>, n: nat): seq<Match>
    requires n >= 1
  {
    if items == [] then []
    else
      var last := |items| - 1;
      Unsorted(digest, word, items[..last], private, n) + ObjectMatches(digest, word, items[last], private, n)
  }

  function Bytes(items: seq<Object>): nat {
    if items == [] then 0 else Bytes(items[..|items| - 1]) + items[|items| - 1].size
  }

  function Blobs(items: seq<Object>): nat {
    if items == [] then 0 else Blobs(items[..|items| - 1]) + if items[|items| - 1].kind == "blob" then 1 else 0
  }

  function CountsOf(items: seq<Object>, matches: seq<Match>): ScanCounts {
    ScanCounts(|items|, Blobs(items), Bytes(items), |matches|, TotalMatched(matches))
  }

  method ScanCandidate(digest: Digest, word: Alphabet, items: seq<Object>, private: set<string>, n: nat)
    returns (matches: seq<Match>, counts: ScanCounts)
    requires n >= 1
    ensures matches == Sort(MatchLe, Unsorted(digest, word, items, private, n))
    ensures counts == CountsOf(items, matches)
  {
    hide ObjectMatches, MatchLe, TotalMatched;
    var objects, blobs, bytes := 0, 0, 0;
    matches := [];
    assert items[..0] == [];
    for i := 0 to |items|
      invariant objects == i && blobs == Blobs(items[..i]) && bytes == Bytes(items[..i])
      invariant matches == Unsorted(digest, word, items[..i], private, n)
    {
      assert items[..i + 1][..i] == items[..i];
      objects := objects + 1;
      bytes := bytes + items[i].size;
      if items[i].kind == "blob" { blobs := blobs + 1; }
      var found := FindObjectMatches(digest, word, items[i], private, n);
      matches := matches + found;
    }
    assert items[..|items|] == items;
    hide Unsorted, Blobs, Bytes;
    matches := Sort(MatchLe, matches);
    var windows := SumWindows(matches);
    counts := ScanCounts(objects, blobs, bytes, |matches|, windows);
  }

  method SumWindows(matches: seq<Match>) returns (windows: nat)
    ensures windows == TotalMatched(matches)
  {
    windows := 0;
    for k := 0 to |matches|
      invariant windows + TotalMatched(matches[k..]) == TotalMatched(matches)
    {
      windows := windows + matches[k].windows;
    }
  }
}
