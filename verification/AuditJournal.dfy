/** The hash-chained, append-only audit journal of the administration helper. */
module AuditJournal {
  import opened Prelude
  import opened Json

  /** The keys of a record: the three that make the chain, told apart from every other name. */
  datatype Key = Sequence | PreviousRecordSha256 | RecordSha256 | Named(name: string)

  type Entry = map<Key, Value>

  /** One line of the journal file as the JSON parser sees it. */
  datatype Line = Malformed | NotObject | Record(entry: Entry)

  /** SHA-256 of the canonical JSON of an object, in hexadecimal. */
  type Digest = Entry -> string

  datatype Error = Unavailable | InvalidAt(line: nat) | Refused | Ended

  /** The journal file: its lines, and whether the last one has its line break. */
  datatype File = File(lines: seq<Line>, terminated: bool) {
    /** What is written next begins a line of its own. */
    predicate AtLineStart() { lines == [] || terminated }
  }

  const EMPTY := File([], true)

  /** How much of an encoded line, a record and its line break, reaches the file. */
  datatype Reach = Nothing | Part | WithoutBreak | Whole

  /** The write is complete and `append` returns; or it stops, by an administration error (`raised`) or in any other way.
      It can stop with the whole line in the file: synchronizing and closing the file come after the write. */
  datatype Write = Complete | Stopped(reach: Reach, raised: bool) {
    function Reached(): Reach { if Complete? then Whole else reach }
  }

  /** `record.get(key)`. */
  function At(entry: Entry, key: Key): Value { if key in entry then entry[key] else Null }

  function Repeat(c: char, n: nat): string { if n == 0 then "" else [c] + Repeat(c, n - 1) }

  /** The back link of the first record. */
  function Genesis(): Value { Str(Repeat('0', 64)) }

  function Unsigned(record: Entry): Entry { record - {RecordSha256} }

  /** The value the record behind `lines` has to carry as its back link. */
  function Link(lines: seq<Line>): Value {
    if lines == [] then Genesis()
    else if lines[|lines| - 1].Record? then At(lines[|lines| - 1].entry, RecordSha256)
    else Null
  }

  predicate Chained(sha: Digest, record: Entry, number: nat, previous: Value) {
    && EqualsInt(At(record, Sequence), number)
    && At(record, PreviousRecordSha256) == previous
    && At(record, RecordSha256) == Str(sha(Unsigned(record)))
  }

  /** The last line is a record that carries its position, its predecessor's digest and its own digest. */
  predicate ChainedLast(sha: Digest, lines: seq<Line>)
    requires lines != []
  {
    var n := |lines| - 1;
    lines[n].Record? && Chained(sha, lines[n].entry, n + 1, Link(lines[..n]))
  }

  predicate Accepted(sha: Digest, lines: seq<Line>) {
    lines == [] || (Accepted(sha, lines[..|lines| - 1]) && ChainedLast(sha, lines))
  }

  /** The objects on the lines. */
  function Records(lines: seq<Line>): seq<Entry> {
    if lines == [] then []
    else
      var n := |lines| - 1;
      Records(lines[..n]) + if lines[n].Record? then [lines[n].entry] else []
  }

  function Body(lines: seq<Line>, payload: Entry): Entry {
    map[Sequence := Int(|lines| + 1), PreviousRecordSha256 := Link(lines)] + payload
  }

  /** The record `append` writes: the caller's payload is spread over the chain keys, then signed. */
  function NextRecord(sha: Digest, lines: seq<Line>, payload: Entry): Entry {
    var body := Body(lines, payload);
    body[RecordSha256 := Str(sha(body))]
  }

  /** The file after a write to an accepted file. Only a whole object can be read back, and an object with more text
      behind it on the same line cannot. */
  function Written(file: File, record: Entry, reach: Reach): File {
    if reach.Nothing? then file
    else if file.AtLineStart() then File(file.lines + [if reach.Part? then Malformed else Record(record)], reach.Whole?)
    else File(file.lines[..|file.lines| - 1] + [Malformed], reach.Whole?)
  }

  /** The length of the longest prefix that `read_all` accepts. */
  function ReadableLines(sha: Digest, lines: seq<Line>): (n: nat)
    ensures n <= |lines| && Accepted(sha, lines[..n])
    ensures forall m | n < m <= |lines| :: !Accepted(sha, lines[..m])
    ensures Accepted(sha, lines) <==> n == |lines|
  {
    assert lines[..|lines|] == lines;
    if Accepted(sha, lines) then |lines|
    else
      var init := lines[..|lines| - 1];
      assert forall m | 0 <= m < |lines| :: init[..m] == lines[..m];
      ReadableLines(sha, init)
  }

  class AdminAuditJournal {
    var file: File
    const sha: Digest

    constructor (sha: Digest)
      ensures file == EMPTY && this.sha == sha
    {
      this.sha := sha;
      file := EMPTY;
    }

    /** `accessible` says whether the directory and the file pass the ownership and mode checks. */
    method ReadAll(accessible: bool) returns (r: Result<seq<Entry>, Error>)
      ensures !accessible ==> r == Err(Unavailable)
      ensures accessible ==> (r.Ok? <==> Accepted(sha, file.lines))
      ensures r.Ok? ==> Accepted(sha, file.lines) && r.value == Records(file.lines)
      ensures accessible && r.Err? ==> r.error.InvalidAt? && 1 <= r.error.line <= |file.lines|
      ensures accessible && r.Err? ==> Accepted(sha, file.lines[..r.error.line - 1])
      ensures accessible && r.Err? ==> !Accepted(sha, file.lines[..r.error.line])
    {
      hide Chained, Accepted;
      if !accessible { return Err(Unavailable); }
      var lines := file.lines;
      var records: seq<Entry> := [];
      var previous := Genesis();
      var i := 0;
      assert lines[..i] == [];
      AcceptedEmpty(sha);
      while i < |lines|
        invariant 0 <= i <= |lines|
        invariant Accepted(sha, lines[..i])
        invariant records == Records(lines[..i]) && previous == Link(lines[..i])
      {
        TakeOneMore(sha, lines, i);
        if !lines[i].Record? { return Err(InvalidAt(i + 1)); }
        var record := lines[i].entry;
        if !Chained(sha, record, i + 1, previous) { return Err(InvalidAt(i + 1)); }
        previous := At(record, RecordSha256);
        records := records + [record];
        i := i + 1;
      }
      assert lines[..i] == lines;
      r := Ok(records);
    }

    method Append(payload: Entry, accessible: bool, write: Write) returns (r: Result<Entry, Error>)
      modifies this
      ensures r.Ok? <==> accessible && Accepted(sha, old(file.lines)) && write.Complete?
      ensures r.Ok? ==> r.value == NextRecord(sha, old(file.lines), payload)
      ensures r == Err(Ended) <==> accessible && Accepted(sha, old(file.lines)) && write.Stopped? && !write.raised
      ensures file ==
        if accessible && Accepted(sha, old(file.lines))
        then Written(old(file), NextRecord(sha, old(file.lines), payload), write.Reached())
        else old(file)
    {
      var read := ReadAll(accessible);
      if read.Err? { return Err(read.error); }
      var records := read.value;
      RecordsOfAccepted(sha, file.lines);
      var body: Entry := map[
        Sequence := Int(|records| + 1),
        PreviousRecordSha256 := if records == [] then Genesis() else At(records[|records| - 1], RecordSha256)
      ] + payload;
      var record := body[RecordSha256 := Str(sha(body))];
      file := Written(file, record, write.Reached());
      match write {
        case Complete => r := Ok(record);
        case Stopped(_, raised) => r := Err(if raised then Refused else Ended);
      }
    }
  }

  lemma AcceptedEmpty(sha: Digest)
    ensures Accepted(sha, [])
  {
  }

  lemma AcceptedExtension(sha: Digest, lines: seq<Line>, line: Line)
    requires Accepted(sha, lines)
    ensures Accepted(sha, lines + [line]) <==> line.Record? && Chained(sha, line.entry, |lines| + 1, Link(lines))
  {
    hide Chained;
    assert (lines + [line])[..|lines|] == lines;
  }

  /** Reading one more line: the longer prefix is accepted iff the line is a chained record. */
  lemma TakeOneMore(sha: Digest, lines: seq<Line>, n: nat)
    requires n < |lines| && Accepted(sha, lines[..n])
    ensures Accepted(sha, lines[..n + 1])
      <==> lines[n].Record? && Chained(sha, lines[n].entry, n + 1, Link(lines[..n]))
    ensures Accepted(sha, lines) ==> Accepted(sha, lines[..n + 1])
    ensures lines[n].Record? ==>
      Records(lines[..n + 1]) == Records(lines[..n]) + [lines[n].entry]
      && Link(lines[..n + 1]) == At(lines[n].entry, RecordSha256)
  {
    hide Chained, Accepted;
    AddedLine(lines, n);
    hide Records, Link;
    AcceptedExtension(sha, lines[..n], lines[n]);
    if Accepted(sha, lines) { AcceptedPrefix(sha, lines, n + 1); }
  }

  lemma AddedLine(lines: seq<Line>, n: nat)
    requires n < |lines|
    ensures lines[..n + 1] == lines[..n] + [lines[n]]
    ensures lines[n].Record? ==>
      Records(lines[..n + 1]) == Records(lines[..n]) + [lines[n].entry]
      && Link(lines[..n + 1]) == At(lines[n].entry, RecordSha256)
  {
    hide At, Genesis;
    assert lines[..n + 1][..n] == lines[..n];
  }

  /** Every prefix of an accepted journal is accepted. */
  lemma {:induction false} AcceptedPrefix(sha: Digest, lines: seq<Line>, n: nat)
    requires Accepted(sha, lines) && n <= |lines|
    ensures Accepted(sha, lines[..n])
    decreases |lines|
  {
    if n == |lines| {
      assert lines[..n] == lines;
    } else {
      AcceptedPrefix(sha, lines[..|lines| - 1], n);
      assert lines[..|lines| - 1][..n] == lines[..n];
    }
  }

  /** The records of an accepted journal are its lines, numbered from 1, each linked to the one before. */
  lemma {:induction false} RecordsOfAccepted(sha: Digest, lines: seq<Line>)
    requires Accepted(sha, lines)
    ensures |Records(lines)| == |lines|
    ensures forall i | 0 <= i < |lines| :: lines[i] == Record(Records(lines)[i])
    ensures forall i | 0 <= i < |lines| :: EqualsInt(At(Records(lines)[i], Sequence), i + 1)
    ensures forall i | 0 < i < |lines| ::
      At(Records(lines)[i], PreviousRecordSha256) == At(Records(lines)[i - 1], RecordSha256)
  {
    hide Chained;
    if lines != [] {
      var n := |lines| - 1;
      RecordsOfAccepted(sha, lines[..n]);
      ChainedFields(sha, lines[n].entry, n + 1, Link(lines[..n]));
      hide Accepted, EqualsInt, At;
      assert Records(lines) == Records(lines[..n]) + [lines[n].entry];
    }
  }

  lemma ChainedFields(sha: Digest, record: Entry, number: nat, previous: Value)
    requires Chained(sha, record, number, previous)
    ensures EqualsInt(At(record, Sequence), number) && At(record, PreviousRecordSha256) == previous
  {
  }

  /** The payload leaves the three chain keys as `append` sets them. */
  predicate KeepsChainKeys(lines: seq<Line>, payload: Entry) {
    && RecordSha256 !in payload
    && (Sequence in payload ==> EqualsInt(payload[Sequence], |lines| + 1))
    && (PreviousRecordSha256 in payload ==> payload[PreviousRecordSha256] == Link(lines))
  }

  /** A write to an accepted file, complete or not, leaves an accepted file exactly when it wrote nothing, or wrote at
      least the whole record, at the start of a line, for a payload that keeps off the chain keys. */
  lemma AppendKeepsChain(sha: Digest, file: File, payload: Entry, reach: Reach)
    requires Accepted(sha, file.lines)
    requires CollisionFree(sha, {Body(file.lines, payload), Unsigned(Body(file.lines, payload))})
    ensures
      Accepted(sha, Written(file, NextRecord(sha, file.lines, payload), reach).lines)
      <==> reach.Nothing? || (!reach.Part? && file.AtLineStart() && KeepsChainKeys(file.lines, payload))
  {
    hide Accepted, Link, Chained;
    var lines := file.lines;
    var record, body := NextRecord(sha, lines, payload), Body(lines, payload);
    WrittenAccepted(sha, file, record, reach);
    NextRecordFields(sha, lines, payload);
    ChainedNext(sha, lines, payload);
  }

  lemma ChainedNext(sha: Digest, lines: seq<Line>, payload: Entry)
    requires CollisionFree(sha, {Body(lines, payload), Unsigned(Body(lines, payload))})
    ensures Chained(sha, NextRecord(sha, lines, payload), |lines| + 1, Link(lines)) <==> KeepsChainKeys(lines, payload)
  {
    hide Link;
    NextRecordFields(sha, lines, payload);
    var body := Body(lines, payload);
    if RecordSha256 in payload {
      assert RecordSha256 in body && RecordSha256 !in Unsigned(body);
    } else {
      assert Unsigned(body) == body;
    }
  }

  lemma WrittenAccepted(sha: Digest, file: File, record: Entry, reach: Reach)
    requires Accepted(sha, file.lines)
    ensures
      Accepted(sha, Written(file, record, reach).lines)
      <==> reach.Nothing? || (!reach.Part? && file.AtLineStart() && Chained(sha, record, |file.lines| + 1, Link(file.lines)))
    ensures !file.AtLineStart() && !reach.Nothing? ==>
      ReadableLines(sha, Written(file, record, reach).lines) == |file.lines| - 1
    ensures file.AtLineStart() ==>
      ReadableLines(sha, Written(file, record, reach).lines) ==
      |file.lines| + if !reach.Nothing? && Accepted(sha, Written(file, record, reach).lines) then 1 else 0
  {
    hide Accepted, Chained;
    var lines := file.lines;
    if file.AtLineStart() {
      AcceptedExtension(sha, lines, if reach.Part? then Malformed else Record(record));
      assert (lines + [Malformed])[..|lines|] == lines && (lines + [Record(record)])[..|lines|] == lines;
    } else {
      var init := lines[..|lines| - 1];
      AcceptedPrefix(sha, lines, |init|);
      AcceptedExtension(sha, init, Malformed);
      assert (init + [Malformed])[..|init|] == init;
    }
  }

  lemma NextRecordFields(sha: Digest, lines: seq<Line>, payload: Entry)
    ensures
      var record, body := NextRecord(sha, lines, payload), Body(lines, payload);
      && Unsigned(record) == Unsigned(body) && At(record, RecordSha256) == Str(sha(body))
      && At(record, Sequence) == (if Sequence in payload then payload[Sequence] else Int(|lines| + 1))
      && At(record, PreviousRecordSha256)
         == (if PreviousRecordSha256 in payload then payload[PreviousRecordSha256] else Link(lines))
      && (RecordSha256 in payload <==> RecordSha256 in body)
  {
    hide Link;
  }

  /** A payload free of chain keys is stored unchanged behind an unchanged journal, with the next number; the file that
      holds it is accepted exactly when the last line before it had its line break. */
  lemma AppendPreservesPayload(sha: Digest, file: File, payload: Entry)
    requires Accepted(sha, file.lines) && payload.Keys !! {Sequence, PreviousRecordSha256, RecordSha256}
    ensures
      var record := NextRecord(sha, file.lines, payload);
      && record - {Sequence, PreviousRecordSha256, RecordSha256} == payload
      && At(record, Sequence) == Int(|file.lines| + 1)
      && Chained(sha, record, |file.lines| + 1, Link(file.lines))
      && (Accepted(sha, Written(file, record, Whole).lines) <==> file.AtLineStart())
      && (file.AtLineStart() ==> Written(file, record, Whole) == File(file.lines + [Record(record)], true))
  {
    hide Accepted, Link;
    var lines := file.lines;
    var record := NextRecord(sha, lines, payload);
    NextRecordFields(sha, lines, payload);
    assert RecordSha256 !in Body(lines, payload);
    assert Unsigned(Body(lines, payload)) == Body(lines, payload);
    assert record - {Sequence, PreviousRecordSha256, RecordSha256} == payload;
    WrittenAccepted(sha, file, record, Whole);
  }

  /** An append that stops just short of the line break leaves an accepted file; the next one returns its record, and
      the file it leaves is never accepted again. */
  lemma UnterminatedBreaks(sha: Digest, first: Entry, second: Entry)
    requires first.Keys !! {Sequence, PreviousRecordSha256, RecordSha256}
    ensures
      var one := Written(EMPTY, NextRecord(sha, [], first), WithoutBreak);
      var two := Written(one, NextRecord(sha, one.lines, second), Whole);
      && Accepted(sha, one.lines) && |one.lines| == 1
      && !Accepted(sha, two.lines) && ReadableLines(sha, two.lines) == 0
  {
    hide ReadableLines, Chained, NextRecord;
    AcceptedEmpty(sha);
    AppendPreservesPayload(sha, EMPTY, first);
    var one := Written(EMPTY, NextRecord(sha, [], first), WithoutBreak);
    WrittenAccepted(sha, EMPTY, NextRecord(sha, [], first), WithoutBreak);
    WrittenAccepted(sha, one, NextRecord(sha, one.lines, second), Whole);
  }

  /** The second file holds everything of the first; only a last line without its line break may have been continued. */
  predicate Continues(a: File, b: File) {
    || b == a
    || (if a.AtLineStart() then a.lines < b.lines
        else |a.lines| <= |b.lines| && a.lines[..|a.lines| - 1] <= b.lines)
  }

  lemma ContinuesTransitive(a: File, b: File, c: File)
    requires Continues(a, b) && Continues(b, c)
    ensures Continues(a, c)
  {
    if a != b && b != c {
      var n := if a.AtLineStart() then |a.lines| else |a.lines| - 1;
      assert n <= |b.lines| && (b.AtLineStart() || n <= |b.lines| - 1);
      assert b.lines[..n] == a.lines[..n];
    }
  }

  lemma WrittenContinues(file: File, record: Entry, reach: Reach)
    ensures Continues(file, Written(file, record, reach))
  {
  }

  function Signed(lines: seq<Line>): set<Entry> {
    set i | 0 <= i < |lines| && lines[i].Record? :: Unsigned(lines[i].entry)
  }

  lemma SignedPrefix(lines: seq<Line>, n: nat)
    requires n <= |lines|
    ensures Signed(lines[..n]) <= Signed(lines)
    ensures n < |lines| && lines[n].Record? ==> Unsigned(lines[n].entry) in Signed(lines)
  {
  }

  /** Two chained records with the same digest are the same record, so they stand at the same position. */
  lemma SameDigestSameRecord(sha: Digest, x: Entry, y: Entry, m: nat, n: nat, p: Value, q: Value)
    requires Chained(sha, x, m, p) && Chained(sha, y, n, q)
    requires CollisionFree(sha, {Unsigned(x), Unsigned(y)})
    requires At(x, RecordSha256) == At(y, RecordSha256)
    ensures x == y && m == n && p == q
  {
    assert Unsigned(x) == Unsigned(y);
    assert RecordSha256 in x && RecordSha256 in y;
    assert x == Unsigned(x)[RecordSha256 := x[RecordSha256]] && y == Unsigned(y)[RecordSha256 := y[RecordSha256]];
  }

  lemma LastChained(sha: Digest, lines: seq<Line>)
    requires Accepted(sha, lines) && lines != []
    ensures
      var n := |lines| - 1;
      && Accepted(sha, lines[..n]) && lines[n].Record? && Unsigned(lines[n].entry) in Signed(lines)
      && Chained(sha, lines[n].entry, n + 1, Link(lines[..n])) && Link(lines) == At(lines[n].entry, RecordSha256)
  {
    hide Chained;
  }

  /** The digest of the last record pins the whole journal, its length included. */
  lemma {:induction false} LastDigestPinsJournal(sha: Digest, a: seq<Line>, b: seq<Line>)
    requires Accepted(sha, a) && Accepted(sha, b) && a != [] && b != []
    requires CollisionFree(sha, Signed(a) + Signed(b))
    requires Link(a) == Link(b)
    ensures a == b
  {
    hide Chained, Unsigned, Signed, At, Genesis, Link, Accepted;
    var n, m := |a| - 1, |b| - 1;
    SignedPrefix(a, n);
    SignedPrefix(b, m);
    LastChained(sha, a);
    LastChained(sha, b);
    SameDigestSameRecord(sha, a[n].entry, b[m].entry, n + 1, m + 1, Link(a[..n]), Link(b[..m]));
    if n > 0 { LastDigestPinsJournal(sha, a[..n], b[..n]); }
    assert a == a[..n] + [a[n]] && b == b[..n] + [b[n]];
  }
}
