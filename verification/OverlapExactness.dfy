/** The overlap detector agrees with the plain question whether n consecutive words occur on both sides. */
module OverlapExactness {
  import opened Prelude
  import Lines
  import opened CorpusOverlap

  /** `count` words from position `i` of `a` also stand, in order, at position `j` of `b`. */
  ghost predicate SameRun(a: seq<string>, i: nat, b: seq<string>, j: nat, count: nat) {
    i + count <= |a| && j + count <= |b| && a[i..i + count] == b[j..j + count]
  }

  /** The `count` words from position `i` occur consecutively in some message. */
  ghost predicate OccursPrivately(word: Alphabet, words: seq<string>, messages: seq<string>, i: nat, count: nat) {
    exists m, j :: 0 <= m < |messages| && 0 <= j && SameRun(words, i, NormalizedWords(word, messages[m]), j, count)
  }

  /** Some `count` consecutive words of the text occur consecutively in some message. */
  ghost predicate Overlaps(word: Alphabet, text: string, messages: seq<string>, count: nat) {
    exists i: nat :: OccursPrivately(word, NormalizedWords(word, text), messages, i, count)
  }

  predicate Spaceless(s: string) { forall i | 0 <= i < |s| :: s[i] != ' ' }

  lemma {:induction false} WordCharacters(word: Alphabet, text: string, i: nat)
    requires i <= |text| && (i == 0 || word(text[i - 1]))
    ensures forall k | i <= k < WordEnd(word, text, i) :: text[k] != ' '
    decreases |text| - i
  {
    if i < |text| && word(text[i]) {
      WordCharacters(word, text, i + 1);
    } else if i + 1 < |text| && Apostrophe(text[i]) && word(text[i + 1]) {
      WordCharacters(word, text, i + 2);
    }
  }

  lemma {:induction false} TokensSpaceless(word: Alphabet, text: string, i: nat)
    requires i <= |text|
    ensures forall k | 0 <= k < |Tokens(word, text, i)| ::
      var t := Tokens(word, text, i)[k]; Spaceless(text[t.start..t.end])
    decreases |text| - i
  {
    if i < |text| {
      if word(text[i]) {
        WordCharacters(word, text, i + 1);
        TokensSpaceless(word, text, WordEnd(word, text, i + 1));
      } else {
        TokensSpaceless(word, text, i + 1);
      }
    }
  }

  /** No normalized word contains the space that `Join` separates words with. */
  lemma WordsSpaceless(word: Alphabet, text: string)
    ensures forall k | 0 <= k < |NormalizedWords(word, text)| :: Spaceless(NormalizedWords(word, text)[k])
  {
    TokensSpaceless(word, text, 0);
    var tokens := Tokens(word, text, 0);
    forall k | 0 <= k < |tokens| ensures Spaceless(NormalizedWords(word, text)[k]) {
      var t := tokens[k];
      assert Spaceless(text[t.start..t.end]);
      assert NormalizedWords(word, text)[k] == Straighten(text[t.start..t.end]);
    }
  }

  /** Two spaceless heads in front of a space or the end of the string are equal when the strings are. */
  lemma HeadsEqual(x: string, r: string, y: string, s: string)
    requires Spaceless(x) && Spaceless(y) && x + r == y + s
    requires (r == "" <==> s == "") && (r != "" ==> r[0] == ' ') && (s != "" ==> s[0] == ' ')
    ensures x == y && r == s
  {
    var k := if |x| < |y| then |x| else |y|;
    assert k < |x + r| ==> (x + r)[k] == (y + s)[k];
    assert |x| == |y|;
    assert x == (x + r)[..|x|] && y == (y + s)[..|y|];
    assert r == (x + r)[|x|..] && s == (y + s)[|y|..];
  }

  /** Joining with spaces loses nothing on equally many spaceless words. */
  lemma {:induction false} JoinInjective(a: seq<string>, b: seq<string>)
    requires |a| == |b| && Lines.Join(" ", a) == Lines.Join(" ", b)
    requires (forall k | 0 <= k < |a| :: Spaceless(a[k])) && (forall k | 0 <= k < |b| :: Spaceless(b[k]))
    ensures a == b
  {
    if |a| > 1 {
      var r, s := " " + Lines.Join(" ", a[1..]), " " + Lines.Join(" ", b[1..]);
      assert Lines.Join(" ", a) == a[0] + r && Lines.Join(" ", b) == b[0] + s;
      HeadsEqual(a[0], r, b[0], s);
      assert Lines.Join(" ", a[1..]) == r[1..] && Lines.Join(" ", b[1..]) == s[1..];
      JoinInjective(a[1..], b[1..]);
      assert a == [a[0]] + a[1..] && b == [b[0]] + b[1..];
    }
  }

  lemma {:induction false} FingerprintsMember(digest: Digest, word: Alphabet, messages: seq<string>, n: nat, d: string)
    ensures d in Fingerprints(digest, word, messages, n) <==>
      exists m :: 0 <= m < |messages| && d in WindowDigests(digest, NormalizedWords(word, messages[m]), n)
  {
    if messages != [] {
      var last := |messages| - 1;
      FingerprintsMember(digest, word, messages[..last], n, d);
      if d in Fingerprints(digest, word, messages[..last], n) {
        var m :| 0 <= m < last && d in WindowDigests(digest, NormalizedWords(word, messages[..last][m]), n);
        assert messages[..last][m] == messages[m];
      }
      if m :| 0 <= m < |messages| && d in WindowDigests(digest, NormalizedWords(word, messages[m]), n) && m < last {
        assert messages[..last][m] == messages[m];
      }
    }
  }

  function Windows(words: seq<string>, n: nat): set<string> {
    set i | 0 <= i < WindowCount(words, n) :: Window(words, n, i)
  }

  /** Every window of the text and of the messages. */
  function AllWindows(word: Alphabet, text: string, messages: seq<string>, n: nat): set<string> {
    Windows(NormalizedWords(word, text), n)
    + set m, w | 0 <= m < |messages| && w in Windows(NormalizedWords(word, messages[m]), n) :: w
  }

  /** A window that occurs privately has its digest among the private ones, whatever the hash. */
  lemma NothingMissed(digest: Digest, word: Alphabet, words: seq<string>, messages: seq<string>, n: nat, i: nat)
    requires n >= 1 && i < WindowCount(words, n) && OccursPrivately(word, words, messages, i, n)
    ensures digest(Window(words, n, i)) in Fingerprints(digest, word, messages, n)
  {
    hide NormalizedWords, Fingerprints;
    var m, j :| 0 <= m < |messages| && 0 <= j && SameRun(words, i, NormalizedWords(word, messages[m]), j, n);
    var other := NormalizedWords(word, messages[m]);
    assert Window(other, n, j) == Window(words, n, i);
    assert digest(Window(words, n, i)) in WindowDigests(digest, other, n);
    FingerprintsMember(digest, word, messages, n, digest(Window(words, n, i)));
  }

  lemma SameWindow(a: seq<string>, i: nat, b: seq<string>, j: nat, n: nat)
    requires i < WindowCount(a, n) && j < WindowCount(b, n) && Window(a, n, i) == Window(b, n, j)
    requires (forall k | 0 <= k < |a| :: Spaceless(a[k])) && (forall k | 0 <= k < |b| :: Spaceless(b[k]))
    ensures SameRun(a, i, b, j, n)
  {
    JoinInjective(a[i..i + n], b[j..j + n]);
  }

  /** A reported window occurs privately, provided the hash separates the windows at hand. */
  lemma NothingInvented(digest: Digest, word: Alphabet, text: string, messages: seq<string>, n: nat, i: nat)
    requires n >= 1 && i < WindowCount(NormalizedWords(word, text), n)
    requires CollisionFree(digest, AllWindows(word, text, messages, n))
    requires digest(Window(NormalizedWords(word, text), n, i)) in Fingerprints(digest, word, messages, n)
    ensures OccursPrivately(word, NormalizedWords(word, text), messages, i, n)
  {
    hide NormalizedWords, Fingerprints, Window;
    var words := NormalizedWords(word, text);
    var d := digest(Window(words, n, i));
    FingerprintsMember(digest, word, messages, n, d);
    var m :| 0 <= m < |messages| && d in WindowDigests(digest, NormalizedWords(word, messages[m]), n);
    var other := NormalizedWords(word, messages[m]);
    var j :| 0 <= j < WindowCount(other, n) && digest(Window(other, n, j)) == d;
    assert Window(words, n, i) in Windows(words, n) && Window(other, n, j) in Windows(other, n);
    assert Window(words, n, i) == Window(other, n, j);
    WordsSpaceless(word, text);
    WordsSpaceless(word, messages[m]);
    SameWindow(words, i, other, j, n);
  }

  function Indexes(digest: Digest, word: Alphabet, text: string, messages: seq<string>, n: nat): seq<nat> {
    MatchingIndexes(digest, Fingerprints(digest, word, messages, n), NormalizedWords(word, text), n)
  }

  /** The matching windows are exactly the windows that occur privately. */
  lemma IndexesExact(digest: Digest, word: Alphabet, text: string, messages: seq<string>, n: nat, i: nat)
    requires n >= 1 && CollisionFree(digest, AllWindows(word, text, messages, n))
    ensures i in Indexes(digest, word, text, messages, n)
      <==> OccursPrivately(word, NormalizedWords(word, text), messages, i, n)
  {
    var words := NormalizedWords(word, text);
    hide NormalizedWords, Fingerprints, OccursPrivately;
    if i in Indexes(digest, word, text, messages, n) {
      NothingInvented(digest, word, text, messages, n, i);
    }
    if OccursPrivately(word, words, messages, i, n) {
      PrivateInside(word, words, messages, i, n);
      NothingMissed(digest, word, words, messages, n, i);
    }
  }

  lemma PrivateInside(word: Alphabet, words: seq<string>, messages: seq<string>, i: nat, n: nat)
    requires OccursPrivately(word, words, messages, i, n)
    ensures i + n <= |words|
  {
  }

  lemma MatchesCount(digest: Digest, item: Object, words: seq<Word>, n: nat, paths: seq<Option<string>>, runs: seq<Run>)
    requires forall k | 0 <= k < |runs| :: Fits(words, n, runs[k])
    ensures |MatchesAll(digest, item, words, n, paths, runs)| == |paths| * |runs|
    ensures forall x | x in MatchesAll(digest, item, words, n, paths, runs) ::
      exists p, k :: 0 <= p < |paths| && 0 <= k < |runs| && x == MatchOf(digest, item, words, n, paths[p], runs[k])
  {
    hide MatchOf, Fits;
    if paths != [] {
      var last := |paths| - 1;
      MatchesCount(digest, item, words, n, paths[..last], runs);
      var all := MatchesAll(digest, item, words, n, paths, runs);
      forall x | x in all ensures
        exists p, k :: 0 <= p < |paths| && 0 <= k < |runs| && x == MatchOf(digest, item, words, n, paths[p], runs[k])
      {
        if x in MatchesAll(digest, item, words, n, paths[..last], runs) {
          var p, k :| 0 <= p < last && 0 <= k < |runs| && x == MatchOf(digest, item, words, n, paths[..last][p], runs[k]);
          assert paths[..last][p] == paths[p];
        } else {
          var at := MatchesAt(digest, item, words, n, paths[last], runs);
          var k :| 0 <= k < |at| && at[k] == x;
          assert x == MatchOf(digest, item, words, n, paths[last], runs[k]);
        }
      }
    }
  }

  function Reported(digest: Digest, word: Alphabet, item: Object, messages: seq<string>, n: nat): seq<Match>
    requires n >= 1
  {
    ObjectMatches(digest, word, item, Fingerprints(digest, word, messages, n), n)
  }

  /** An object is reported iff n of its consecutive words occur consecutively in a private message. */
  lemma DetectorExact(digest: Digest, word: Alphabet, item: Object, messages: seq<string>, n: nat)
    requires n >= 1 && CollisionFree(digest, AllWindows(word, item.text, messages, n))
    ensures Reported(digest, word, item, messages, n) != [] <==> Overlaps(word, item.text, messages, n)
  {
    var words := WordLocations(word, item.text);
    var indexes := Indexes(digest, word, item.text, messages, n);
    hide Fingerprints, OccursPrivately, Locations;
    forall i: nat ensures i in indexes <==> OccursPrivately(word, NormalizedWords(word, item.text), messages, i, n) {
      IndexesExact(digest, word, item.text, messages, n, i);
    }
    assert indexes == [] <==> forall i: nat :: i !in indexes by {
      if indexes != [] { assert indexes[0] in indexes; }
    }
    CoalesceFits(words, n, indexes);
    var runs := Coalesce(indexes);
    MatchesCount(digest, item, words, n, Locations(item), runs);
    assert |Locations(item)| * |runs| == 0 <==> runs == [];
  }

  /** The run holds none of the window starts from `i` to `last`. */
  predicate Misses(run: Run, i: nat, last: nat) { run.last < i || last < run.first }

  /** A passage of `count >= n` shared words lies inside the words of exactly one reported run. */
  lemma PassageInOneRun(digest: Digest, word: Alphabet, text: string, messages: seq<string>, n: nat, i: nat, count: nat)
    requires 1 <= n <= count && OccursPrivately(word, NormalizedWords(word, text), messages, i, count)
    ensures
      var runs := Coalesce(Indexes(digest, word, text, messages, n));
      exists k :: 0 <= k < |runs| && runs[k].first <= i && i + count <= runs[k].last + n
        && forall other | 0 <= other < |runs| && other != k :: Misses(runs[other], i, i + count - n)
  {
    var words := NormalizedWords(word, text);
    var indexes := Indexes(digest, word, text, messages, n);
    var runs := Coalesce(indexes);
    hide Fingerprints, NormalizedWords;
    forall w | i <= w <= i + count - n ensures w in indexes {
      SubPassage(word, words, messages, i, count, w, n);
      PrivateInside(word, words, messages, w, n);
      NothingMissed(digest, word, words, messages, n, w);
    }
    CoalescePartition(indexes);
    hide Indexes, Coalesce, OccursPrivately, Ascending;
    assert i in indexes;
    var k :| 0 <= k < |runs| && runs[k].first <= i <= runs[k].last;
    RunCovers(indexes, runs, k, i, i + count - n);
    forall other | 0 <= other < |runs| && other != k
      ensures Misses(runs[other], i, i + count - n)
    {
      if other < k { RunsApart(indexes, runs, other, k); } else { RunsApart(indexes, runs, k, other); }
    }
  }

  lemma SubPassage(word: Alphabet, words: seq<string>, messages: seq<string>, i: nat, count: nat, w: nat, n: nat)
    requires OccursPrivately(word, words, messages, i, count) && i <= w && w + n <= i + count
    ensures OccursPrivately(word, words, messages, w, n)
  {
    hide NormalizedWords;
    var m, j :| 0 <= m < |messages| && 0 <= j && SameRun(words, i, NormalizedWords(word, messages[m]), j, count);
    var other := NormalizedWords(word, messages[m]);
    var d := w - i;
    SliceOfSlice(words, i, count, d, n);
    SliceOfSlice(other, j, count, d, n);
    assert SameRun(words, w, other, j + d, n);
  }

  lemma SliceOfSlice(s: seq<string>, i: nat, count: nat, d: nat, n: nat)
    requires i + count <= |s| && d + n <= count
    ensures s[i..i + count][d..d + n] == s[i + d..i + d + n]
  {
    var a, b, c := s[i..i + count], s[i..i + count][d..d + n], s[i + d..i + d + n];
    forall k | 0 <= k < n ensures b[k] == c[k] {
      assert b[k] == a[d + k] == s[i + d + k];
    }
  }

  /** The run that holds the start of a block of matching windows holds the whole block. */
  lemma {:induction false} RunCovers(indexes: seq<nat>, runs: seq<Run>, k: nat, i: nat, last: nat)
    requires Partition(indexes, runs) && k < |runs| && runs[k].first <= i <= runs[k].last
    requires i <= last && forall w | i <= w <= last :: w in indexes
    ensures last <= runs[k].last
  {
    if runs[k].last < last {
      var w := runs[k].last + 1;
      assert w in indexes;
      var other :| 0 <= other < |runs| && runs[other].first <= w <= runs[other].last;
      if other < k { RunsApart(indexes, runs, other, k); }
      else if k < other { RunsApart(indexes, runs, k, other); }
    }
  }

  /** Clean with windows of n words implies clean with every larger window. */
  lemma CleanStaysClean(digest: Digest, word: Alphabet, item: Object, messages: seq<string>, n: nat, larger: nat)
    requires 1 <= n <= larger && Reported(digest, word, item, messages, n) == []
    requires CollisionFree(digest, AllWindows(word, item.text, messages, larger))
    ensures Reported(digest, word, item, messages, larger) == []
  {
    DetectorExact(digest, word, item, messages, larger);
    if Reported(digest, word, item, messages, larger) != [] {
      var words := NormalizedWords(word, item.text);
      var i: nat :| OccursPrivately(word, words, messages, i, larger);
      SubPassage(word, words, messages, i, larger, i, n);
      PrivateInside(word, words, messages, i, n);
      NothingMissed(digest, word, words, messages, n, i);
      ReportedWhenMatching(digest, word, item, messages, n, i);
    }
  }

  lemma ReportedWhenMatching(digest: Digest, word: Alphabet, item: Object, messages: seq<string>, n: nat, i: nat)
    requires n >= 1 && i in Indexes(digest, word, item.text, messages, n)
    ensures Reported(digest, word, item, messages, n) != []
  {
    hide Fingerprints, Locations;
    var words := WordLocations(word, item.text);
    var indexes := Indexes(digest, word, item.text, messages, n);
    CoalesceFits(words, n, indexes);
    MatchesCount(digest, item, words, n, Locations(item), Coalesce(indexes));
    assert |Locations(item)| * |Coalesce(indexes)| > 0;
  }
}
