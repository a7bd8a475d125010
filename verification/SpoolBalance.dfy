/** Between the operations of a run that is never cut short, counter and spool add up exactly. */
module SpoolBalance {
  import opened Prelude
  import opened BakeCam
  import opened CapturePlan
  import opened SpoolSafety
  import opened SpoolRuns

  /** Each counter has counted as many captures as are on record for its session. */
  ghost predicate Exact(s: Store) {
    forall sid | sid in s.sessions :: s.sessions[sid].captureCount == |Of(s.counted, sid)|
  }

  /** Every capture of the session is either spooled or counted, never both. */
  ghost predicate Split(session: Session, captured: set<CaptureId>, counted: set<CaptureId>) {
    captured == SpoolIds(session) + counted && SpoolIds(session) !! counted
  }

  ghost predicate Splits(s: Store, captured: set<Key>) {
    forall sid | sid in s.sessions :: Split(s.sessions[sid], Of(captured, sid), Of(s.counted, sid))
  }

  ghost predicate Balanced(s: Store, captured: set<Key>) { Inv(s, captured) && Exact(s) && Splits(s, captured) }

  /** No write counts a capture a second time. */
  ghost predicate AllFresh(s: Store, ws: seq<Write>)
    requires Addressed(s, ws)
  {
    ws == [] || (
      var n := |ws| - 1;
      assert forall w | w in ws[..n] :: w in ws;
      AllFresh(s, ws[..n])
      && (ws[n].CountCapture? ==> (ws[n].sid, ws[n].id) !in Replay(s, ws[..n]).counted))
  }

  lemma ExactKeeps(s: Store, w: Write)
    requires Exact(s) && w.sid in s.sessions && (w.CountCapture? ==> (w.sid, w.id) !in s.counted)
    ensures Exact(Do(s, w))
  {
    if w.CountCapture? {
      forall other | other in s.sessions ensures Do(s, w).sessions[other].captureCount == |Of(Do(s, w).counted, other)| {
        OfAdd(s.counted, w.sid, w.id, other);
        if other == w.sid { assert w.id !in Of(s.counted, other); }
      }
    }
  }

  lemma {:induction false} AllFreshKeeps(s: Store, ws: seq<Write>)
    requires Exact(s) && Addressed(s, ws) && AllFresh(s, ws)
    ensures Exact(Replay(s, ws))
    decreases |ws|
  {
    hide Exact, Do;
    if ws != [] {
      PrefixAddressed(s, ws, |ws| - 1);
      AllFreshKeeps(s, ws[..|ws| - 1]);
      ExactKeeps(Replay(s, ws[..|ws| - 1]), ws[|ws| - 1]);
    }
  }

  lemma FreshStep(s: Store, ws: seq<Write>, w: Write)
    requires Addressed(s, ws) && AllFresh(s, ws) && w.sid in s.sessions
    requires w.CountCapture? ==> (w.sid, w.id) !in Replay(s, ws).counted
    ensures Addressed(s, ws + [w]) && AllFresh(s, ws + [w]) && Replay(s, ws + [w]) == Do(Replay(s, ws), w)
  {
    hide Do;
    ReplayStep(s, ws, w);
    assert (ws + [w])[..|ws + [w]| - 1] == ws;
  }

  lemma SyncedFresh(s: Store, ws: seq<Write>, c: Capture)
    requires Addressed(s, ws) && AllFresh(s, ws) && c.session in s.sessions
    requires (c.session, c.id) !in Replay(s, ws).counted
    ensures Addressed(s, ws + SyncedWrites(c)) && AllFresh(s, ws + SyncedWrites(c))
  {
    hide AllFresh, Replay;
    var store, count := StoreMetadata(c.session, c.id), CountCapture(c.session, c.id, c.capturedAt);
    FreshStep(s, ws, store);
    FreshStep(s, ws + [store], count);
    assert ws + [store] + [count] == ws + SyncedWrites(c);
  }

  lemma {:induction false} ItemsFresh(s: Store, spool: seq<Capture>, copy: Capture -> Copy)
    requires (forall c | c in spool :: c.session in s.sessions) && DistinctIds(spool)
    requires forall c | c in spool :: (c.session, c.id) !in s.counted
    ensures Addressed(s, ItemWrites(spool, copy)) && AllFresh(s, ItemWrites(spool, copy))
  {
    hide AllFresh, Replay, SyncedWrites;
    ItemsSafe(s, spool, copy);
    if spool == [] {
      NothingFresh(s);
    } else {
      var last := |spool| - 1;
      assert spool == spool[..last] + [spool[last]];
      ItemsFresh(s, spool[..last], copy);
      ItemsSafe(s, spool[..last], copy);
      var before := ItemWrites(spool[..last], copy);
      if copy(spool[last]).Copied? {
        var key := (spool[last].session, spool[last].id);
        assert key !in CopiedKeys(spool[..last], copy);
        SyncedFresh(s, before, spool[last]);
      } else {
        assert before + [] == before;
      }
    }
  }

  lemma NothingFresh(s: Store)
    ensures Addressed(s, []) && AllFresh(s, []) && Replay(s, []) == s
  {
  }

  lemma OfUnion(a: set<Key>, b: set<Key>, sid: SessionId)
    ensures Of(a + b, sid) == Of(a, sid) + Of(b, sid)
  {
    assert forall k | k in a + b :: k in a || k in b;
    assert forall k | k in a || k in b :: k in a + b;
  }

  lemma CopiedOf(sid: SessionId, spool: seq<Capture>, copy: Capture -> Copy, other: SessionId)
    requires AllOf(sid, spool)
    ensures Of(CopiedKeys(spool, copy), other)
      == if other == sid then set c | c in spool && copy(c).Copied? :: c.id else {}
  {
    if other == sid {
      forall c | c in spool && copy(c).Copied? ensures c.id in Of(CopiedKeys(spool, copy), sid) {
        assert (c.session, c.id) in CopiedKeys(spool, copy);
      }
    }
  }

  /** Copied captures move from the spool to the counted ones. */
  lemma RemainingSplit(session: Session, after: Session, copy: Capture -> Copy, captured: set<CaptureId>,
                       counted: set<CaptureId>)
    requires Split(session, captured, counted) && DistinctIds(Spool(session))
    requires forall c | c in Spool(session) :: !copy(c).UnknownDevice?
    requires after.spooled == Some(Remaining(Spool(session), copy))
    ensures Split(after, captured, counted + set c | c in Spool(session) && copy(c).Copied? :: c.id)
  {
    var spool := Spool(session);
    forall id | id in captured && id !in counted
      ensures id in SpoolIds(after) || id in set c | c in spool && copy(c).Copied? :: c.id
    {
      var c :| c in spool && c.id == id;
      assert copy(c).CopyFailed? ==> c in Spool(after);
    }
    forall c, d | c in Spool(after) && d in spool && copy(d).Copied? ensures c.id != d.id {
      var i :| 0 <= i < |spool| && spool[i] == c;
      var j :| 0 <= j < |spool| && spool[j] == d;
    }
    forall c | c in Spool(after) ensures c.id in SpoolIds(session) {
    }
  }

  /** Only one session changes its spool or its counted captures. */
  lemma SplitsUpdate(s: Store, t: Store, captured: set<Key>, more: set<Key>, sid: SessionId)
    requires Splits(s, captured) && t.sessions.Keys == s.sessions.Keys && sid in s.sessions
    requires forall other | other in s.sessions && other != sid ::
      && t.sessions[other].spooled == s.sessions[other].spooled
      && Of(more, other) == Of(captured, other) && Of(t.counted, other) == Of(s.counted, other)
    requires Split(t.sessions[sid], Of(more, sid), Of(t.counted, sid))
    ensures Splits(t, more)
  {
    hide Of;
    forall other | other in t.sessions ensures Split(t.sessions[other], Of(more, other), Of(t.counted, other)) {
      assert Split(s.sessions[other], Of(captured, other), Of(s.counted, other));
      if other != sid { assert SpoolIds(t.sessions[other]) == SpoolIds(s.sessions[other]); }
    }
  }

  lemma UncountedItems(s: Store, captured: set<Key>, sid: SessionId, items: seq<Capture>)
    requires Splits(s, captured) && sid in s.sessions && AllOf(sid, items)
    requires forall c | c in items :: c in Spool(s.sessions[sid])
    ensures forall c | c in items :: (c.session, c.id) !in s.counted
  {
    forall c | c in items ensures (sid, c.id) !in s.counted {
      assert c.id in SpoolIds(s.sessions[sid]);
      assert (sid, c.id) in s.counted ==> c.id in Of(s.counted, sid);
    }
  }

  lemma ItemsExact(s: Store, captured: set<Key>, sid: SessionId, items: seq<Capture>, copy: Capture -> Copy)
    requires Exact(s) && Splits(s, captured) && sid in s.sessions && AllOf(sid, items) && DistinctIds(items)
    requires forall c | c in items :: c in Spool(s.sessions[sid])
    ensures Addressed(s, ItemWrites(items, copy)) && Exact(Replay(s, ItemWrites(items, copy)))
  {
    UncountedItems(s, captured, sid, items);
    hide Exact, AllFresh, Replay, ItemWrites, Splits;
    ItemsFresh(s, items, copy);
    AllFreshKeeps(s, ItemWrites(items, copy));
  }

  /** A session whose devices are all known is balanced again once it has been synchronized. */
  lemma SessionBalanced(s: Store, captured: set<Key>, sid: SessionId, session: Session, copy: Capture -> Copy)
    requires Balanced(s, captured) && sid in s.sessions && s.sessions[sid].spooled == session.spooled
    requires SessionWrites(sid, session, copy).1
    ensures Addressed(s, SessionWrites(sid, session, copy).0)
    ensures Balanced(Replay(s, SessionWrites(sid, session, copy).0), captured)
  {
    hide Exact, Splits, AllSafe, Replay, ItemWrites, Remaining, Inv;
    LoadedSound(s, captured, sid);
    SessionSafe(s, sid, session, copy);
    var writes := SessionWrites(sid, session, copy).0;
    AllSafeKeeps(s, captured, writes);
    NothingSafe(s);
    if session.spooled.Some? {
      var spool := session.spooled.value;
      var items, replace := ItemWrites(spool, copy), ReplaceSpool(sid, Remaining(spool, copy));
      ItemsExact(s, captured, sid, spool, copy);
      ItemsSafe(s, spool, copy);
      ReplayStep(s, items, replace);
      ExactKeeps(Replay(s, items), replace);
      NoneCaptured(sid, spool, copy);
      assert captured + {} == captured;
      forall c | c in spool ensures !copy(c).UnknownDevice? {
        var k :| 0 <= k < |spool| && spool[k] == c;
      }
      ReplacedSplits(s, Replay(s, items), captured, sid, spool, copy);
    }
  }

  lemma ReplacedSplits(s: Store, t: Store, captured: set<Key>, sid: SessionId, spool: seq<Capture>,
                       copy: Capture -> Copy)
    requires Splits(s, captured) && sid in s.sessions && Spool(s.sessions[sid]) == spool
    requires AllOf(sid, spool) && DistinctIds(spool) && forall c | c in spool :: !copy(c).UnknownDevice?
    requires SameSpools(s, t) && t.counted == s.counted + CopiedKeys(spool, copy)
    ensures Splits(Do(t, ReplaceSpool(sid, Remaining(spool, copy))), captured)
  {
    var u := Do(t, ReplaceSpool(sid, Remaining(spool, copy)));
    assert Split(s.sessions[sid], Of(captured, sid), Of(s.counted, sid));
    RemainingSplit(s.sessions[sid], u.sessions[sid], copy, Of(captured, sid), Of(s.counted, sid));
    forall other | other in s.sessions
      ensures Of(u.counted, other) == Of(s.counted, other)
        + if other == sid then set c | c in spool && copy(c).Copied? :: c.id else {}
    {
      OfUnion(s.counted, CopiedKeys(spool, copy), other);
      CopiedOf(sid, spool, copy, other);
    }
    hide Of, Split, Splits, Remaining, CopiedKeys;
    SplitsUpdate(s, u, captured, captured, sid);
  }

  lemma NoneCaptured(sid: SessionId, spool: seq<Capture>, copy: Capture -> Copy)
    ensures Captured(ItemWrites(spool, copy) + [ReplaceSpool(sid, Remaining(spool, copy))]) == {}
  {
    ItemsCaptureNothing(spool, copy);
    CapturedOne(ReplaceSpool(sid, Remaining(spool, copy)));
    CapturedConcat(ItemWrites(spool, copy), [ReplaceSpool(sid, Remaining(spool, copy))]);
  }

  lemma {:induction false} ItemsCaptureNothing(spool: seq<Capture>, copy: Capture -> Copy)
    ensures Captured(ItemWrites(spool, copy)) == {}
  {
    if spool != [] {
      ItemsCaptureNothing(spool[..|spool| - 1], copy);
      CapturedConcat(ItemWrites(spool[..|spool| - 1], copy), SyncedWrites(spool[|spool| - 1]));
    }
  }
}
