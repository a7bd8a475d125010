/** Durations, capture plans and transport retries of a capture session. */
module CapturePlan {
  import opened Prelude
  import opened Text
  import opened Decimal

  type CaptureId = string

  // ---- durations

  function Printed(n: int): string { if n < 0 then "-" + Digits(-n) else Digits(n) }

  /** The label of an offset, in the largest of hours, minutes and seconds that divides it. */
  function FormatDuration(seconds: int): string {
    if seconds % 3600 == 0 then "t+" + Printed(seconds / 3600) + "h"
    else if seconds % 60 == 0 then "t+" + Printed(seconds / 60) + "m"
    else "t+" + Printed(seconds) + "s"
  }

  predicate AllSpace(s: string) { forall i | 0 <= i < |s| :: Space(s[i]) }

  predicate Unit(u: string) { u == "" || u == "s" || u == "m" || u == "h" || u == "d" }

  function Multiplier(u: string): nat {
    match u
    case "m" => 60
    case "h" => 3600
    case "d" => 86400
    case _ => 1
  }

  function ParseDuration(value: string): Option<nat> {
    var text := Strip(Lower(value));
    var end := DigitsEnd(text, 0);
    var unit := LStrip(text[end..]);
    if end == 0 || !Unit(unit) then None else Some(Value(text[..end]) * Multiplier(unit))
  }

  /** The pattern of a duration: space, digits, space, an optional unit, space. */
  ghost predicate Matches(text: string, a: string, digits: string, b: string, unit: string, c: string) {
    && text == a + digits + b + unit + c
    && AllSpace(a) && AllSpace(b) && AllSpace(c)
    && digits != "" && AllDigits(digits) && Unit(unit)
  }

  lemma {:induction false} LStripSpace(a: string, s: string)
    requires AllSpace(a) && (s != "" ==> !Space(s[0]))
    ensures LStrip(a + s) == s
  {
    if a == "" {
      assert a + s == s;
    } else {
      assert (a + s)[1..] == a[1..] + s;
      LStripSpace(a[1..], s);
    }
  }

  lemma {:induction false} RStripSpace(s: string, c: string)
    requires AllSpace(c) && (s != "" ==> !Space(s[|s| - 1]))
    ensures RStrip(s + c) == s
  {
    if c == "" {
      assert s + c == s;
    } else {
      assert (s + c)[..|s + c| - 1] == s + c[..|c| - 1];
      RStripSpace(s, c[..|c| - 1]);
    }
  }

  lemma {:induction false} LStripSplits(s: string) returns (a: string)
    ensures AllSpace(a) && s == a + LStrip(s)
  {
    if s != "" && Space(s[0]) {
      a := LStripSplits(s[1..]);
      a := [s[0]] + a;
    } else {
      a := "";
    }
  }

  lemma {:induction false} RStripSplits(s: string) returns (c: string)
    ensures AllSpace(c) && s == RStrip(s) + c
  {
    if s != "" && Space(s[|s| - 1]) {
      c := RStripSplits(s[..|s| - 1]);
      c := c + [s[|s| - 1]];
    } else {
      c := "";
    }
  }

  lemma StripSpace(a: string, text: string, c: string)
    requires AllSpace(a) && AllSpace(c) && text != "" && Trimmed(text)
    ensures Strip(a + text + c) == text
  {
    assert (a + text)[|a + text| - 1] == text[|text| - 1];
    RStripSpace(a + text, c);
    LStripSpace(a, text);
  }

  lemma ParseParts(digits: string, gap: string, unit: string)
    requires digits != "" && AllDigits(digits) && AllSpace(gap) && Unit(unit) && (unit == "" ==> gap == "")
    ensures
      var text := digits + gap + unit;
      && Trimmed(text) && DigitsEnd(text, 0) == |digits|
      && text[..|digits|] == digits && LStrip(text[|digits|..]) == unit
  {
    var text := digits + gap + unit;
    assert text == digits + (gap + unit);
    assert unit != "" ==> !Space(unit[0]) && !Digit(unit[0]);
    assert gap + unit != "" ==> (gap + unit)[0] == if gap == "" then unit[0] else gap[0];
    DigitsEndOf(digits, gap + unit, 0);
    assert text[|digits|..] == gap + unit;
    LStripSpace(gap, unit);
  }

  /** A text that matches is read as its digits times its unit. */
  lemma MatchesParses(value: string, a: string, digits: string, b: string, unit: string, c: string)
    requires Matches(Lower(value), a, digits, b, unit, c)
    ensures ParseDuration(value) == Some(Value(digits) * Multiplier(unit))
  {
    hide Strip, LStrip, Value, Multiplier, DigitsEnd;
    var gap := if unit == "" then "" else b;
    var tail := if unit == "" then b + c else c;
    var text := digits + gap + unit;
    assert Lower(value) == a + text + tail;
    ParseParts(digits, gap, unit);
    StripSpace(a, text, tail);
  }

  /** Whatever is read matches the pattern. */
  lemma ParsesMatches(value: string) returns (a: string, digits: string, b: string, unit: string, c: string)
    requires ParseDuration(value).Some?
    ensures Matches(Lower(value), a, digits, b, unit, c)
  {
    c := RStripSplits(Lower(value));
    a := LStripSplits(RStrip(Lower(value)));
    var text := Strip(Lower(value));
    var end := DigitsEnd(text, 0);
    b := LStripSplits(text[end..]);
    digits, unit := text[..end], LStrip(text[end..]);
    assert text == digits + (b + unit);
  }

  lemma LowerPlain(s: string)
    requires forall i | 0 <= i < |s| :: !('A' <= s[i] <= 'Z')
    ensures Lower(s) == s
  {
  }

  lemma PrintedParses(n: nat, unit: string)
    requires Unit(unit)
    ensures ParseDuration(Digits(n) + unit) == Some(n * Multiplier(unit))
  {
    hide ParseDuration, Digits, Value, Multiplier;
    LowerPlain(Digits(n) + unit);
    DigitsRoundTrip(n);
    assert Digits(n) + unit == "" + Digits(n) + "" + unit + "";
    MatchesParses(Digits(n) + unit, "", Digits(n), "", unit, "");
  }

  lemma MatchesStart(text: string, a: string, digits: string, b: string, unit: string, c: string)
    requires Matches(text, a, digits, b, unit, c)
    ensures text != "" && (Space(text[0]) || Digit(text[0]))
  {
    assert text[0] == if a == "" then digits[0] else a[0];
  }

  lemma NegativeRefused(text: string)
    requires text != "" && text[0] == '-'
    ensures ParseDuration(text).None?
  {
    hide ParseDuration;
    if ParseDuration(text).Some? {
      var a, digits, b, unit, c := ParsesMatches(text);
      MatchesStart(Lower(text), a, digits, b, unit, c);
    }
  }

  /** A label is read back to the seconds it stands for, exactly when these are not negative. */
  lemma FormatParse(n: int)
    ensures |FormatDuration(n)| >= 2
    ensures ParseDuration(FormatDuration(n)[2..]) == Some(n) <==> n >= 0
  {
    hide ParseDuration, Digits;
    if n < 0 {
      NegativeRefused(FormatDuration(n)[2..]);
    } else if n % 3600 == 0 {
      PrintedParses(n / 3600, "h");
      assert FormatDuration(n)[2..] == Digits(n / 3600) + "h";
    } else if n % 60 == 0 {
      PrintedParses(n / 60, "m");
      assert FormatDuration(n)[2..] == Digits(n / 60) + "m";
    } else {
      PrintedParses(n, "s");
      assert FormatDuration(n)[2..] == Digits(n) + "s";
    }
  }

  // ---- offsets

  datatype ScheduleError = InvalidDuration | InvalidInterval | MissingSchedule | EmptySchedule

  /** The durations of the non-blank entries; the first unreadable one refuses the list. */
  function ParseEntries(entries: seq<string>): Option<seq<nat>> {
    if entries == [] then Some([])
    else
      var before := ParseEntries(entries[..|entries| - 1]);
      var entry := Strip(entries[|entries| - 1]);
      if before.None? || entry == "" then before
      else
        var duration := ParseDuration(entry);
        if duration.None? then None else Some(before.value + [duration.value])
  }

  /** Every `step` seconds from `next`, up to and including `end`. */
  function Upto(next: nat, step: nat, end: nat): seq<nat>
    requires step > 0
    decreases end + step - next
  {
    if next > end then [] else [next] + Upto(next + step, step, end)
  }

  /** The offsets a schedule asks for; an absent argument is the empty text. */
  function Offsets(every: string, until: string, at: string): Result<seq<nat>, ScheduleError> {
    var offsets :=
      if at != "" then
        var entries := ParseEntries(Split(at, ','));
        if entries.None? then Err(InvalidDuration) else Ok(entries.value)
      else if every != "" && until != "" then
        var step, end := ParseDuration(every), ParseDuration(until);
        if step.None? || end.None? then Err(InvalidDuration)
        else if step.value == 0 then Err(InvalidInterval)
        else Ok(Upto(0, step.value, end.value))
      else Err(MissingSchedule);
    if offsets == Ok([]) then Err(EmptySchedule) else offsets
  }

  method ParseAt(at: string) returns (offsets: Option<seq<nat>>)
    ensures offsets == ParseEntries(Split(at, ','))
  {
    var entries := Split(at, ',');
    var parsed: seq<nat> := [];
    var k := 0;
    while k < |entries|
      invariant 0 <= k <= |entries| && ParseEntries(entries[..k]) == Some(parsed)
    {
      assert entries[..k + 1][..k] == entries[..k];
      var entry := Strip(entries[k]);
      if entry != "" {
        var duration := ParseDuration(entry);
        if duration.None? {
          RefusedEntry(entries, k + 1);
          return None;
        }
        parsed := parsed + [duration.value];
      }
      k := k + 1;
    }
    assert entries[..k] == entries;
    return Some(parsed);
  }

  lemma {:induction false} RefusedEntry(entries: seq<string>, k: nat)
    requires k <= |entries| && ParseEntries(entries[..k]).None?
    ensures ParseEntries(entries).None?
    decreases |entries|
  {
    if k == |entries| {
      assert entries[..k] == entries;
    } else {
      assert entries[..|entries| - 1][..k] == entries[..k];
      RefusedEntry(entries[..|entries| - 1], k);
    }
  }

  method ScheduleOffsets(every: string, until: string, at: string) returns (r: Result<seq<nat>, ScheduleError>)
    ensures r == Offsets(every, until, at)
  {
    var offsets: seq<nat> := [];
    if at != "" {
      var parsed := ParseAt(at);
      if parsed.None? { return Err(InvalidDuration); }
      offsets := parsed.value;
    } else if every != "" && until != "" {
      var step, end := ParseDuration(every), ParseDuration(until);
      if step.None? || end.None? { return Err(InvalidDuration); }
      if step.value == 0 { return Err(InvalidInterval); }
      offsets := Range(step.value, end.value);
    } else {
      return Err(MissingSchedule);
    }
    if offsets == [] { return Err(EmptySchedule); }
    return Ok(offsets);
  }

  method Range(step: nat, end: nat) returns (offsets: seq<nat>)
    requires step > 0
    ensures offsets == Upto(0, step, end)
  {
    offsets := [];
    var next := 0;
    while next <= end
      invariant offsets + Upto(next, step, end) == Upto(0, step, end)
      decreases end + step - next
    {
      assert [next] + Upto(next + step, step, end) == Upto(next, step, end);
      assert offsets + [next] + Upto(next + step, step, end) == offsets + Upto(next, step, end);
      offsets := offsets + [next];
      next := next + step;
    }
  }

  predicate Divides(step: nat, x: int)
    requires step > 0
  {
    x % step == 0
  }

  lemma AtLeastOnce(k: nat, step: nat)
    requires k > 0
    ensures k * step >= step
  {
  }

  lemma DivisionUnique(step: nat, q: int, r: int, p: int, t: int)
    requires q * step + r == p * step + t && 0 <= r < step && 0 <= t < step
    ensures r == t
  {
    assert (q - p) * step == q * step - p * step && (p - q) * step == p * step - q * step;
    if q > p {
      AtLeastOnce(q - p, step);
    } else if q < p {
      AtLeastOnce(p - q, step);
    }
  }

  lemma DividesStep(a: nat, step: nat)
    requires 0 < step <= a
    ensures Divides(step, a - step) <==> Divides(step, a)
  {
    var q, p := a / step, (a - step) / step;
    assert a == q * step + a % step;
    assert a - step == p * step + (a - step) % step;
    assert (p + 1) * step == p * step + step;
    DivisionUnique(step, q, a % step, p + 1, (a - step) % step);
  }

  lemma DividesSmall(a: nat, step: nat)
    requires a < step
    ensures Divides(step, a) <==> a == 0
  {
  }

  /** The offsets of an interval schedule are the multiples of the interval up to the end. */
  lemma {:induction false} UptoMultiples(next: nat, step: nat, end: nat, x: nat)
    requires step > 0
    ensures x in Upto(next, step, end) <==> next <= x <= end && Divides(step, x - next)
    decreases end + step - next
  {
    hide Divides;
    if next <= end {
      UptoMultiples(next + step, step, end, x);
      if next + step <= x {
        DividesStep(x - next, step);
      } else if next <= x {
        DividesSmall(x - next, step);
      }
    }
  }

  // ---- plans

  datatype PlanItem = PlanItem(offset: int, tag: string, done: bool, captureId: Option<CaptureId>)

  datatype Stored = Stored(id: CaptureId, elapsed: int)

  /** Within a minute of the offset. */
  predicate Near(capture: Stored, offset: int) { -60 <= capture.elapsed - offset <= 60 }

  function CaptureFor(captures: seq<Stored>, offset: int): Option<CaptureId> {
    if captures == [] then None
    else if Near(captures[0], offset) then Some(captures[0].id)
    else CaptureFor(captures[1..], offset)
  }

  ghost predicate StrictlyIncreasing(s: seq<int>) { forall i, j | 0 <= i < j < |s| :: s[i] < s[j] }

  function Place(x: int, s: seq<int>): seq<int> {
    if s == [] || x < s[0] then [x] + s else if x == s[0] then s else [s[0]] + Place(x, s[1..])
  }

  lemma InFront(x: int, s: seq<int>)
    requires StrictlyIncreasing(s) && forall y | y in s :: x < y
    ensures StrictlyIncreasing([x] + s) && forall y :: y in [x] + s <==> y == x || y in s
  {
    assert forall i | 0 <= i < |s| :: s[i] in s;
  }

  lemma {:induction false} PlaceSorted(x: int, s: seq<int>)
    requires StrictlyIncreasing(s)
    ensures StrictlyIncreasing(Place(x, s)) && forall y :: y in Place(x, s) <==> y == x || y in s
  {
    if s == [] || x < s[0] {
      forall y | y in s ensures x < y {
        var i :| 0 <= i < |s| && s[i] == y;
      }
      InFront(x, s);
    } else if x > s[0] {
      forall y | y in s[1..] ensures s[0] < y {
        var i :| 0 <= i < |s[1..]| && s[1..][i] == y;
      }
      PlaceSorted(x, s[1..]);
      InFront(s[0], Place(x, s[1..]));
      assert s == [s[0]] + s[1..];
      hide StrictlyIncreasing;
    }
  }

  /** The different offsets in increasing order. */
  function SortedSet(offsets: seq<int>): (r: seq<int>)
    ensures StrictlyIncreasing(r) && forall y :: y in r <==> y in offsets
  {
    if offsets == [] then []
    else
      assert offsets == [offsets[0]] + offsets[1..];
      var rest := SortedSet(offsets[1..]);
      PlaceSorted(offsets[0], rest);
      Place(offsets[0], rest)
  }

  function ItemFor(captures: seq<Stored>, offset: int, tag: string): PlanItem {
    PlanItem(offset, tag, CaptureFor(captures, offset).Some?, CaptureFor(captures, offset))
  }

  function Plan(offsets: seq<int>, captures: seq<Stored>): (plan: seq<PlanItem>)
    ensures |plan| == |SortedSet(offsets)|
  {
    var s := SortedSet(offsets);
    seq(|s|, i requires 0 <= i < |s| => ItemFor(captures, s[i], FormatDuration(s[i])))
  }

  function Refresh(plan: seq<PlanItem>, captures: seq<Stored>): seq<PlanItem> {
    seq(|plan|, i requires 0 <= i < |plan| => ItemFor(captures, plan[i].offset, plan[i].tag))
  }

  method BuildPlan(offsets: seq<int>, captures: seq<Stored>) returns (plan: seq<PlanItem>)
    ensures plan == Plan(offsets, captures)
  {
    hide FormatDuration, CaptureFor;
    plan := [];
    var sorted := SortedSet(offsets);
    for i := 0 to |sorted|
      invariant |plan| == i
      invariant forall k | 0 <= k < i :: plan[k] == ItemFor(captures, sorted[k], FormatDuration(sorted[k]))
    {
      var found := CaptureFor(captures, sorted[i]);
      plan := plan + [PlanItem(sorted[i], FormatDuration(sorted[i]), found.Some?, found)];
    }
  }

  method RefreshPlan(plan: seq<PlanItem>, captures: seq<Stored>) returns (refreshed: seq<PlanItem>)
    ensures refreshed == Refresh(plan, captures)
  {
    hide FormatDuration, CaptureFor;
    refreshed := [];
    for i := 0 to |plan|
      invariant |refreshed| == i
      invariant forall k | 0 <= k < i :: refreshed[k] == ItemFor(captures, plan[k].offset, plan[k].tag)
    {
      var found := CaptureFor(captures, plan[i].offset);
      refreshed := refreshed + [plan[i].(done := found.Some?, captureId := found)];
    }
  }

  /** An offset is done exactly when a capture lies within a minute of it, and then it names one of those. */
  lemma {:induction false} CaptureForNear(captures: seq<Stored>, offset: int)
    ensures CaptureFor(captures, offset).Some? <==> exists c :: c in captures && Near(c, offset)
    ensures CaptureFor(captures, offset).Some? ==>
      exists c :: c in captures && Near(c, offset) && CaptureFor(captures, offset) == Some(c.id)
  {
    if captures != [] {
      assert captures[0] in captures && forall c :: c in captures <==> c == captures[0] || c in captures[1..];
      CaptureForNear(captures[1..], offset);
    }
  }

  /** A plan has one item for every requested offset, in increasing order, with labels that tell them apart. */
  lemma PlanOrdered(offsets: seq<nat>, captures: seq<Stored>)
    ensures forall i, j | 0 <= i < j < |Plan(offsets, captures)| ::
      Plan(offsets, captures)[i].offset < Plan(offsets, captures)[j].offset
    ensures forall x :: x in offsets <==>
      exists i :: 0 <= i < |Plan(offsets, captures)| && Plan(offsets, captures)[i].offset == x
    ensures forall i, j | 0 <= i < j < |Plan(offsets, captures)| ::
      Plan(offsets, captures)[i].tag != Plan(offsets, captures)[j].tag
  {
    var s, plan := SortedSet(offsets), Plan(offsets, captures);
    forall x ensures x in offsets <==> exists i :: 0 <= i < |plan| && plan[i].offset == x {
      if x in s {
        var i :| 0 <= i < |s| && s[i] == x;
        assert plan[i].offset == x;
      }
    }
    forall i, j | 0 <= i < j < |plan| ensures plan[i].tag != plan[j].tag {
      assert s[i] in offsets && s[j] in offsets;
      FormatParse(s[i]);
      FormatParse(s[j]);
    }
  }

  /** Refreshing a plan on later captures gives what scheduling the same offsets on them would. */
  lemma RefreshReplans(offsets: seq<int>, before: seq<Stored>, after: seq<Stored>)
    ensures Refresh(Plan(offsets, before), after) == Plan(offsets, after)
  {
    var s := SortedSet(offsets);
    assert forall i | 0 <= i < |s| :: Plan(offsets, before)[i] == ItemFor(before, s[i], FormatDuration(s[i]));
  }

  /** Only the last refresh matters. */
  lemma RefreshLast(plan: seq<PlanItem>, first: seq<Stored>, second: seq<Stored>)
    ensures Refresh(Refresh(plan, first), second) == Refresh(plan, second)
  {
    assert forall i | 0 <= i < |plan| :: Refresh(plan, first)[i] == ItemFor(first, plan[i].offset, plan[i].tag);
  }

  /** Captures that are added, anywhere in the listing, never turn a done item back to pending. */
  lemma DoneStays(plan: seq<PlanItem>, before: seq<Stored>, after: seq<Stored>, i: nat)
    requires i < |plan| && Refresh(plan, before)[i].done && forall c | c in before :: c in after
    ensures Refresh(plan, after)[i].done
  {
    CaptureForNear(before, plan[i].offset);
    CaptureForNear(after, plan[i].offset);
  }

  // ---- retries

  datatype Completed = Completed(returncode: int, stderr: string)

  function Markers(): seq<string> {
    ["timed out", "operation timed out", "connection timed out", "connection reset", "connection closed",
     "banner exchange", "no route to host", "network is unreachable", "could not resolve hostname", "broken pipe"]
  }

  predicate Transient(r: Completed) { exists m :: m in Markers() && Contains(Lower(r.stderr), m) }

  function Limit(attempts: int): (n: nat)
    ensures n >= 1 && n >= attempts && (n == 1 || n == attempts)
  {
    if attempts < 1 then 1 else attempts
  }

  /** `outcome(k)` is what attempt number `k` gives; the events list the attempts made. */
  method RunWithRetries(outcome: nat -> Completed, attempts: int) returns (result: Completed, events: seq<(nat, Completed)>)
    ensures 1 <= |events| <= Limit(attempts) && result == outcome(|events|)
    ensures forall k | 0 <= k < |events| :: events[k] == (k + 1, outcome(k + 1))
    ensures forall k | 1 <= k < |events| :: Transient(outcome(k))
    ensures |events| < Limit(attempts) ==> !Transient(result)
  {
    result := outcome(1);
    events := [(1, result)];
    var attempt := 2;
    while attempt <= Limit(attempts)
      invariant 2 <= attempt <= Limit(attempts) + 1 && |events| == attempt - 1 && result == outcome(|events|)
      invariant forall k | 0 <= k < |events| :: events[k] == (k + 1, outcome(k + 1))
      invariant forall k | 1 <= k < |events| :: Transient(outcome(k))
    {
      if !Transient(result) { break; }
      result := outcome(attempt);
      events := events + [(attempt, result)];
      attempt := attempt + 1;
    }
  }
}
