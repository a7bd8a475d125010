/** Context expansion: hits of the base query and of six slot queries, merged by source and put in order of priority. */
module ContextMerge {
  import opened Prelude
  import opened Sorting
  import opened Text

  datatype Slot =
    | CurrentState | CriticalConstraints | RelevantPreferences | RelevantOutcomes | FailuresAndLessons
    | ContradictionsAndQualifications

  function Slots(): seq<Slot> {
    [CurrentState, CriticalConstraints, RelevantPreferences, RelevantOutcomes, FailuresAndLessons,
     ContradictionsAndQualifications]
  }

  datatype Hit = Hit(id: string, role: string, score: real, snippet: string)

  datatype Item = Item(hit: Hit, hint: Option<Slot>)

  // ---- priority

  function Group(item: Item): nat {
    var user := Lower(item.hit.role) == "user";
    if user && item.hint.Some? then 0 else if user then 1 else if item.hint.Some? then 2 else 3
  }

  /** Lower group first, then higher score, then the source id. */
  predicate Before(a: Item, b: Item) {
    || Group(a) < Group(b)
    || (Group(a) == Group(b)
        && (a.hit.score > b.hit.score || (a.hit.score == b.hit.score && StringLe(a.hit.id, b.hit.id))))
  }

  lemma BeforeTotal()
    ensures TotalPreorder(Before)
  {
    hide Group;
    forall a, b ensures Before(a, b) || Before(b, a) {
      StringLeTotal(a.hit.id, b.hit.id);
    }
    forall a, b, c | Before(a, b) && Before(b, c) ensures Before(a, c) {
      if StringLe(a.hit.id, b.hit.id) && StringLe(b.hit.id, c.hit.id) {
        StringLeTransitive(a.hit.id, b.hit.id, c.hit.id);
      }
    }
  }

  /** Items of different sources are never ranked equal. */
  lemma BeforeStrict(a: Item, b: Item)
    requires Before(a, b) && Before(b, a)
    ensures a.hit.id == b.hit.id
  {
    StringLeTotal(a.hit.id, b.hit.id);
  }

  // ---- what the merge has to give

  /** Python's `s[:limit]`. */
  function Take<T>(s: seq<T>, limit: int): seq<T> {
    if limit >= |s| then s
    else if limit >= 0 then s[..limit]
    else if |s| + limit >= 0 then s[..|s| + limit]
    else []
  }

  /** A slot query and one of its hits. */
  datatype Visit = Visit(slot: Slot, hit: Hit)

  function VisitsOf(slot: Slot, hits: seq<Hit>): seq<Visit> {
    seq(|hits|, i requires 0 <= i < |hits| => Visit(slot, hits[i]))
  }

  /** All slot hits in the order in which they are retrieved. */
  function Visits(retrieve: Slot -> seq<Hit>, slots: seq<Slot>): seq<Visit> {
    if slots == [] then []
    else Visits(retrieve, slots[..|slots| - 1]) + VisitsOf(slots[|slots| - 1], retrieve(slots[|slots| - 1]))
  }

  function LastWith(hits: seq<Hit>, id: string): Option<Hit> {
    if hits == [] then None
    else if hits[|hits| - 1].id == id then Some(hits[|hits| - 1])
    else LastWith(hits[..|hits| - 1], id)
  }

  function FirstVisit(visits: seq<Visit>, id: string): Option<Visit> {
    if visits == [] then None
    else
      var earlier := FirstVisit(visits[..|visits| - 1], id);
      if earlier.None? && visits[|visits| - 1].hit.id == id then Some(visits[|visits| - 1]) else earlier
  }

  /** The merged item of one source: the base hit if there is one, hinted by the first slot that retrieved it. */
  function Merged(base: seq<Hit>, visits: seq<Visit>, id: string): Option<Item> {
    var visit := FirstVisit(visits, id);
    var hint := if visit.Some? then Some(visit.value.slot) else None;
    var known := LastWith(base, id);
    if id == "" then None
    else if known.Some? then Some(Item(known.value, hint))
    else if visit.Some? then Some(Item(visit.value.hit, hint))
    else None
  }

  /** The items are those of the candidates that come first: the best ones, strictly in order, one for each source. */
  ghost predicate Best(items: seq<Item>, candidates: set<string>, of: string -> Option<Item>, count: nat) {
    && |items| == (if count < |candidates| then count else |candidates|)
    && (forall k | 0 <= k < |items| :: items[k].hit.id in candidates && of(items[k].hit.id) == Some(items[k]))
    && (forall j, k | 0 <= j < k < |items| ::
          items[j].hit.id != items[k].hit.id && Before(items[j], items[k]) && !Before(items[k], items[j]))
    && (forall id | id in candidates && of(id).Some? && (forall k | 0 <= k < |items| :: items[k].hit.id != id) ::
          forall k | 0 <= k < |items| :: Before(items[k], of(id).value))
  }

  function Larger(a: int, b: int): int { if a > b then a else b }

  // ---- the merge

  function Record(base: map<string, Item>, hit: Hit): map<string, Item> {
    if hit.id == "" then base else base[hit.id := Item(hit, None)]
  }

  method BaseItems(hits: seq<Hit>) returns (base: map<string, Item>)
    ensures forall id :: id in base <==> id != "" && LastWith(hits, id).Some?
    ensures forall id | id in base :: base[id] == Item(LastWith(hits, id).value, None)
  {
    base := map[];
    assert hits[..0] == [];
    for i := 0 to |hits|
      invariant forall id :: id in base <==> id != "" && LastWith(hits[..i], id).Some?
      invariant forall id | id in base :: base[id] == Item(LastWith(hits[..i], id).value, None)
    {
      assert hits[..i + 1][..i] == hits[..i];
      base := Record(base, hits[i]);
    }
    assert hits[..|hits|] == hits;
  }

  /** The two dictionaries after some slot hits. */
  ghost predicate Holds(base: seq<Hit>, visits: seq<Visit>, baseItems: map<string, Item>, slotItems: map<string, Item>) {
    && (forall id :: id in baseItems <==> id != "" && LastWith(base, id).Some?)
    && (forall id :: id in slotItems <==> id != "" && LastWith(base, id).None? && FirstVisit(visits, id).Some?)
    && (forall id | id in baseItems :: Some(baseItems[id]) == Merged(base, visits, id))
    && (forall id | id in slotItems :: Some(slotItems[id]) == Merged(base, visits, id))
  }

  lemma FirstVisitStep(visits: seq<Visit>, visit: Visit, id: string)
    ensures FirstVisit(visits + [visit], id)
      == if FirstVisit(visits, id).None? && visit.hit.id == id then Some(visit) else FirstVisit(visits, id)
  {
    assert (visits + [visit])[..|visits|] == visits;
  }

  /** One slot hit: a new source, or the first hint of a known one. */
  method Expand(base: seq<Hit>, visits: seq<Visit>, baseItems: map<string, Item>, slotItems: map<string, Item>,
                visit: Visit) returns (b: map<string, Item>, s: map<string, Item>)
    requires Holds(base, visits, baseItems, slotItems)
    ensures Holds(base, visits + [visit], b, s)
  {
    b, s := baseItems, slotItems;
    var id := visit.hit.id;
    forall x ensures FirstVisit(visits + [visit], x)
      == if FirstVisit(visits, x).None? && id == x then Some(visit) else FirstVisit(visits, x)
    {
      FirstVisitStep(visits, visit, x);
    }
    hide FirstVisit, LastWith;
    if id == "" {
    } else if id in slotItems {
    } else if id in baseItems {
      if baseItems[id].hint.None? { b := baseItems[id := baseItems[id].(hint := Some(visit.slot))]; }
    } else {
      s := slotItems[id := Item(visit.hit, Some(visit.slot))];
    }
  }

  method ExpandSlot(base: seq<Hit>, visits: seq<Visit>, baseItems: map<string, Item>,
                    slotItems: map<string, Item>, slot: Slot, hits: seq<Hit>)
    returns (b: map<string, Item>, s: map<string, Item>)
    requires Holds(base, visits, baseItems, slotItems)
    ensures Holds(base, visits + VisitsOf(slot, hits), b, s)
  {
    hide Holds;
    b, s := baseItems, slotItems;
    assert visits + VisitsOf(slot, hits[..0]) == visits;
    for i := 0 to |hits|
      invariant Holds(base, visits + VisitsOf(slot, hits[..i]), b, s)
    {
      b, s := Expand(base, visits + VisitsOf(slot, hits[..i]), b, s, Visit(slot, hits[i]));
      assert visits + VisitsOf(slot, hits[..i + 1]) == visits + VisitsOf(slot, hits[..i]) + [Visit(slot, hits[i])];
    }
    assert hits[..|hits|] == hits;
  }

  /** The values of a dictionary keyed by source id, in some order. */
  method Values(items: map<string, Item>) returns (values: seq<Item>)
    requires forall id | id in items :: items[id].hit.id == id
    ensures |values| == |items.Keys|
    ensures forall k | 0 <= k < |values| :: values[k].hit.id in items && items[values[k].hit.id] == values[k]
    ensures forall id | id in items :: items[id] in values
    ensures forall j, k | 0 <= j < k < |values| :: values[j].hit.id != values[k].hit.id
  {
    values := [];
    var rest := items.Keys;
    while rest != {}
      invariant rest <= items.Keys && |values| + |rest| == |items.Keys|
      invariant forall k | 0 <= k < |values| ::
        values[k].hit.id in items && values[k].hit.id !in rest && items[values[k].hit.id] == values[k]
      invariant forall id | id in items && id !in rest :: items[id] in values
      invariant forall j, k | 0 <= j < k < |values| :: values[j].hit.id != values[k].hit.id
      decreases |rest|
    {
      var id :| id in rest;
      rest := rest - {id};
      values := values + [items[id]];
    }
  }

  /** `sources` are the sources that any query has found. */
  method SlotExpandedContextItems(results: seq<Hit>, retrieve: Slot -> seq<Hit>, limit: int, summary: bool)
    returns (items: seq<Item>, ghost sources: set<string>)
    ensures summary ==>
      && |items| == |Take(results, limit)|
      && (forall k | 0 <= k < |items| :: items[k] == Item(Take(results, limit)[k], None))
    ensures !summary ==>
      var merged := (id: string) => Merged(Take(results, limit), Visits(retrieve, Slots()), id);
      (forall id :: id in sources <==> merged(id).Some?) && Best(items, sources, merged, Larger(limit, 6))
  {
    var base := Take(results, limit);
    sources := {};
    if summary {
      items := [];
      for i := 0 to |base|
        invariant |items| == i && forall k | 0 <= k < i :: items[k] == Item(base[k], None)
      {
        items := items + [Item(base[i], None)];
      }
      return;
    }
    hide Holds, Best, Merged;
    var baseItems := BaseItems(base);
    var slotItems: map<string, Item> := map[];
    NothingVisited(base, baseItems);
    var slots := Slots();
    assert slots[..0] == [];
    for i := 0 to |slots|
      invariant Holds(base, Visits(retrieve, slots[..i]), baseItems, slotItems)
    {
      assert slots[..i + 1][..i] == slots[..i];
      baseItems, slotItems :=
        ExpandSlot(base, Visits(retrieve, slots[..i]), baseItems, slotItems, slots[i], retrieve(slots[i]));
    }
    assert slots[..|slots|] == slots;
    ghost var visits := Visits(retrieve, slots);
    HoldsMerged(base, visits, baseItems, slotItems);
    var merged := baseItems + slotItems;
    var values := Values(merged);
    sources := merged.Keys;
    items := Take(Sort(Before, values), Larger(limit, 6));
    SortedBest(values, merged, Larger(limit, 6));
    BestSame(items, sources, (id: string) => if id in merged then Some(merged[id]) else None,
             (id: string) => Merged(base, visits, id), Larger(limit, 6));
  }

  lemma NothingVisited(base: seq<Hit>, baseItems: map<string, Item>)
    requires forall id :: id in baseItems <==> id != "" && LastWith(base, id).Some?
    requires forall id | id in baseItems :: baseItems[id] == Item(LastWith(base, id).value, None)
    ensures Holds(base, [], baseItems, map[])
  {
    hide LastWith;
  }

  lemma HoldsMerged(base: seq<Hit>, visits: seq<Visit>, baseItems: map<string, Item>, slotItems: map<string, Item>)
    requires Holds(base, visits, baseItems, slotItems)
    ensures forall id :: id in baseItems + slotItems <==> Merged(base, visits, id).Some?
    ensures forall id | id in baseItems + slotItems :: Merged(base, visits, id) == Some((baseItems + slotItems)[id])
    ensures forall id | id in baseItems + slotItems :: (baseItems + slotItems)[id].hit.id == id
  {
    forall id ensures Merged(base, visits, id).Some? ==> Merged(base, visits, id).value.hit.id == id {
      LastWithId(base, id);
      FirstVisitId(visits, id);
    }
    hide LastWith, FirstVisit;
  }

  lemma {:induction false} LastWithId(hits: seq<Hit>, id: string)
    ensures LastWith(hits, id).Some? ==> LastWith(hits, id).value.id == id
  {
    if hits != [] { LastWithId(hits[..|hits| - 1], id); }
  }

  lemma {:induction false} FirstVisitId(visits: seq<Visit>, id: string)
    ensures FirstVisit(visits, id).Some? ==> FirstVisit(visits, id).value.hit.id == id
  {
    if visits != [] { FirstVisitId(visits[..|visits| - 1], id); }
  }

  lemma BestSame(items: seq<Item>, candidates: set<string>, of: string -> Option<Item>, other: string -> Option<Item>,
                 count: nat)
    requires Best(items, candidates, of, count) && forall id | id in candidates :: of(id) == other(id)
    ensures Best(items, candidates, other, count)
  {
    hide Before;
  }

  lemma SortedBest(values: seq<Item>, merged: map<string, Item>, count: nat)
    requires |values| == |merged.Keys|
    requires forall k | 0 <= k < |values| :: values[k].hit.id in merged && merged[values[k].hit.id] == values[k]
    requires forall id | id in merged :: merged[id] in values && merged[id].hit.id == id
    requires forall j, k | 0 <= j < k < |values| :: values[j].hit.id != values[k].hit.id
    ensures
      var of := (id: string) => if id in merged then Some(merged[id]) else None;
      Best(Take(Sort(Before, values), count), merged.Keys, of, count)
  {
    var sorted := Sort(Before, values);
    BeforeTotal();
    SortPermutes(Before, values);
    SortSorted(Before, values);
    DistinctSorted(values, sorted);
    hide Before, Sort, Best, Take;
    forall k | 0 <= k < |sorted| ensures sorted[k].hit.id in merged && merged[sorted[k].hit.id] == sorted[k] {
      assert sorted[k] in values;
    }
    forall id | id in merged ensures merged[id] in sorted {
    }
    PrefixBest(sorted, merged, count);
  }

  lemma PrefixBest(sorted: seq<Item>, merged: map<string, Item>, count: nat)
    requires |sorted| == |merged.Keys| && SortedBy(Before, sorted)
    requires forall k | 0 <= k < |sorted| :: sorted[k].hit.id in merged && merged[sorted[k].hit.id] == sorted[k]
    requires forall id | id in merged :: merged[id] in sorted && merged[id].hit.id == id
    requires forall j, k | 0 <= j < k < |sorted| :: sorted[j].hit.id != sorted[k].hit.id
    ensures
      var of := (id: string) => if id in merged then Some(merged[id]) else None;
      Best(Take(sorted, count), merged.Keys, of, count)
  {
    hide Before;
    var items := Take(sorted, count);
    assert items == sorted[..|items|];
    StrictlyOrdered(sorted);
    forall id | id in merged && (forall k | 0 <= k < |items| :: items[k].hit.id != id)
      ensures forall k | 0 <= k < |items| :: Before(items[k], merged[id])
    {
      LeftOut(sorted, |items|, merged[id]);
    }
    hide SortedBy;
  }

  lemma StrictlyOrdered(sorted: seq<Item>)
    requires SortedBy(Before, sorted)
    requires forall j, k | 0 <= j < k < |sorted| :: sorted[j].hit.id != sorted[k].hit.id
    ensures forall j, k | 0 <= j < k < |sorted| :: Before(sorted[j], sorted[k]) && !Before(sorted[k], sorted[j])
  {
    hide Before;
    forall j, k | 0 <= j < k < |sorted| ensures Before(sorted[j], sorted[k]) && !Before(sorted[k], sorted[j]) {
      if Before(sorted[k], sorted[j]) { BeforeStrict(sorted[j], sorted[k]); }
    }
  }

  lemma LeftOut(sorted: seq<Item>, n: nat, x: Item)
    requires SortedBy(Before, sorted) && n <= |sorted| && x in sorted && x !in sorted[..n]
    ensures forall k | 0 <= k < n :: Before(sorted[k], x)
  {
    hide Before;
    assert forall i | 0 <= i < n :: sorted[..n][i] == sorted[i];
    var j :| 0 <= j < |sorted| && sorted[j] == x;
  }

  lemma DistinctSorted(values: seq<Item>, sorted: seq<Item>)
    requires multiset(sorted) == multiset(values)
    requires forall j, k | 0 <= j < k < |values| :: values[j].hit.id != values[k].hit.id
    ensures forall j, k | 0 <= j < k < |sorted| :: sorted[j].hit.id != sorted[k].hit.id
  {
    forall j, k | 0 <= j < k < |sorted| ensures sorted[j].hit.id != sorted[k].hit.id {
      if sorted[j].hit.id == sorted[k].hit.id {
        assert sorted[j] in multiset(values) && sorted[k] in multiset(values);
        TwiceInSeq(sorted, j, k);
        OnceInSeq(values, sorted[j]);
      }
    }
  }

  lemma TwiceInSeq(s: seq<Item>, j: nat, k: nat)
    requires j < k < |s| && s[j] == s[k]
    ensures multiset(s)[s[j]] >= 2
  {
    assert s == s[..k] + [s[k]] + s[k + 1..];
    assert s[j] in s[..k];
  }

  lemma {:induction false} OnceInSeq(s: seq<Item>, x: Item)
    requires forall j, k | 0 <= j < k < |s| :: s[j].hit.id != s[k].hit.id
    ensures multiset(s)[x] <= 1
    ensures forall k | 0 <= k < |s| && s[k].hit.id == x.hit.id && x in s :: s[k] == x
  {
    if s != [] {
      OnceInSeq(s[1..], x);
      assert s == [s[0]] + s[1..];
      if s[0] == x { assert x !in s[1..]; }
    }
  }

  lemma BestFollows(a: seq<Item>, b: seq<Item>, candidates: set<string>, of: string -> Option<Item>, count: nat, k: nat)
    requires Best(a, candidates, of, count) && Best(b, candidates, of, count)
    requires k < |a| && k < |b| && a[..k] == b[..k] && a[k] != b[k]
    ensures Before(b[k], a[k])
  {
    hide Before;
    var id := a[k].hit.id;
    forall i | 0 <= i < k ensures b[i].hit.id != id {
      assert a[..k][i] == b[..k][i];
    }
    if i :| k <= i < |b| && b[i].hit.id == id {
      assert b[i] == a[k];
    }
  }

  /** The best items and their order are determined by the candidates alone. */
  lemma BestUnique(a: seq<Item>, b: seq<Item>, candidates: set<string>, of: string -> Option<Item>, count: nat)
    requires Best(a, candidates, of, count) && Best(b, candidates, of, count)
    ensures a == b
  {
    BestPrefix(a, b, candidates, of, count, |a|);
    assert a[..|a|] == a && b[..|a|] == b;
  }

  lemma BestLength(a: seq<Item>, b: seq<Item>, candidates: set<string>, of: string -> Option<Item>, count: nat)
    requires Best(a, candidates, of, count) && Best(b, candidates, of, count)
    ensures |a| == |b|
  {
  }

  lemma {:induction false} BestPrefix(a: seq<Item>, b: seq<Item>, candidates: set<string>, of: string -> Option<Item>,
                                      count: nat, k: nat)
    requires Best(a, candidates, of, count) && Best(b, candidates, of, count) && k <= |a|
    ensures |a| == |b| && a[..k] == b[..k]
  {
    BestLength(a, b, candidates, of, count);
    hide Best, Before;
    if k > 0 {
      BestPrefix(a, b, candidates, of, count, k - 1);
      BestNext(a, b, candidates, of, count, k - 1);
      assert a[..k] == a[..k - 1] + [a[k - 1]] && b[..k] == b[..k - 1] + [b[k - 1]];
    }
  }

  lemma BestNext(a: seq<Item>, b: seq<Item>, candidates: set<string>, of: string -> Option<Item>, count: nat, k: nat)
    requires Best(a, candidates, of, count) && Best(b, candidates, of, count) && k < |a| && k < |b| && a[..k] == b[..k]
    ensures a[k] == b[k]
  {
    hide Best, Before;
    if a[k] != b[k] {
      BestFollows(a, b, candidates, of, count, k);
      BestFollows(b, a, candidates, of, count, k);
      BestStrict(a, b, candidates, of, count, k);
    }
  }

  lemma BestStrict(a: seq<Item>, b: seq<Item>, candidates: set<string>, of: string -> Option<Item>, count: nat, k: nat)
    requires Best(a, candidates, of, count) && Best(b, candidates, of, count) && k < |a| && k < |b|
    requires Before(a[k], b[k]) && Before(b[k], a[k])
    ensures a[k] == b[k]
  {
    BeforeStrict(a[k], b[k]);
    hide Before;
  }
}
