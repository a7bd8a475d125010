/** No captured image is lost, wherever a capture or a synchronization is cut short. */
module SpoolSafety {
  import opened Prelude
  import opened BakeCam
  import opened CapturePlan

  type Key = (SessionId, CaptureId)

  /** The captures that have entered a spool. */
  function Captured(ws: seq<Write>): set<Key> {
    set w | w in ws && w.AppendSpool? :: (w.sid, w.capture.id)
  }

  function SpoolIds(session: Session): set<CaptureId> { set c | c in Spool(session) :: c.id }

  /** The captures of one session in a set of keys. */
  function Of(keys: set<Key>, sid: SessionId): set<CaptureId> { set k | k in keys && k.0 == sid :: k.1 }

  ghost predicate DistinctIds(spool: seq<Capture>) {
    forall i, j | 0 <= i < j < |spool| :: spool[i].id != spool[j].id
  }

  /** The session accounts for every capture that entered its spool. */
  ghost predicate Accounted(session: Session, sid: SessionId, captured: set<CaptureId>, counted: set<CaptureId>) {
    && AllOf(sid, Spool(session)) && DistinctIds(Spool(session))
    && captured <= SpoolIds(session) + counted
    && session.captureCount >= |counted|
  }

  ghost predicate Inv(s: Store, captured: set<Key>) {
    && s.counted <= s.metadata
    && (forall k | k in captured :: k.0 in s.sessions)
    && (forall sid | sid in s.sessions :: Accounted(s.sessions[sid], sid, Of(captured, sid), Of(s.counted, sid)))
  }

  /** What a write has to respect: nothing leaves a spool uncounted, nothing is counted before it is stored. */
  ghost predicate Safe(s: Store, w: Write) {
    && w.sid in s.sessions
    && match w
       case AppendSpool(sid, c) => c.session == sid
       case CountCapture(sid, id, _) => (sid, id) in s.metadata
       case RemoveSpooled(sid, id) => (sid, id) in s.counted
       case ReplaceSpool(sid, remaining) =>
         && (forall c | c in remaining :: c in Spool(s.sessions[sid])) && DistinctIds(remaining)
         && (forall c | c in Spool(s.sessions[sid]) :: c in remaining || (sid, c.id) in s.counted)
       case _ => true
  }

  lemma {:induction false} FilterDistinct(p: Capture -> bool, spool: seq<Capture>)
    requires DistinctIds(spool)
    ensures DistinctIds(Filter(p, spool))
  {
    if spool != [] {
      FilterDistinct(p, spool[1..]);
      assert forall c | c in spool[1..] :: c.id != spool[0].id;
    }
  }

  lemma OfAdd(keys: set<Key>, sid: SessionId, id: CaptureId, other: SessionId)
    ensures Of(keys + {(sid, id)}, other) == if other == sid then Of(keys, sid) + {id} else Of(keys, other)
  {
    assert forall k | k in keys + {(sid, id)} :: k in keys || k == (sid, id);
    if other == sid { assert (sid, id) in keys + {(sid, id)}; }
  }

  lemma AppendAccounted(session: Session, sid: SessionId, c: Capture, captured: set<CaptureId>, counted: set<CaptureId>)
    requires Accounted(session, sid, captured, counted) && c.session == sid
    ensures Accounted(session.(spooled := Some(Without(Spool(session), c.id) + [c])), sid, captured + {c.id}, counted)
  {
    var p := (x: Capture) => x.id != c.id;
    var spool := Filter(p, Spool(session)) + [c];
    FilterDistinct(p, Spool(session));
    assert forall x | x in Filter(p, Spool(session)) :: x.id != c.id && x.session == sid;
    assert DistinctIds(spool) && AllOf(sid, spool);
    var after := session.(spooled := Some(spool));
    assert Spool(after) == spool;
    forall id | id in captured + {c.id} ensures id in SpoolIds(after) + counted {
      if id == c.id {
        assert c in spool;
      } else if id !in counted {
        var x :| x in Spool(session) && x.id == id;
        assert x in spool;
      }
    }
  }

  lemma RemoveAccounted(session: Session, sid: SessionId, id: CaptureId, captured: set<CaptureId>, counted: set<CaptureId>)
    requires Accounted(session, sid, captured, counted) && id in counted
    ensures Accounted(session.(spooled := Some(Without(Spool(session), id))), sid, captured, counted)
  {
    var p := (x: Capture) => x.id != id;
    var after := session.(spooled := Some(Filter(p, Spool(session))));
    FilterDistinct(p, Spool(session));
    forall other | other in captured ensures other in SpoolIds(after) + counted {
      if other !in counted {
        var x :| x in Spool(session) && x.id == other;
        assert x in Spool(after);
      }
    }
  }

  lemma ReplaceAccounted(session: Session, sid: SessionId, remaining: seq<Capture>, captured: set<CaptureId>,
                         counted: set<CaptureId>)
    requires Accounted(session, sid, captured, counted) && DistinctIds(remaining)
    requires forall c | c in remaining :: c in Spool(session)
    requires forall c | c in Spool(session) :: c in remaining || c.id in counted
    ensures Accounted(session.(spooled := Some(remaining)), sid, captured, counted)
  {
    var after := session.(spooled := Some(remaining));
    forall id | id in captured ensures id in SpoolIds(after) + counted {
      if id !in counted {
        var x :| x in Spool(session) && x.id == id;
        assert x in remaining;
      }
    }
  }

  lemma CountAccounted(session: Session, after: Session, sid: SessionId, id: CaptureId, captured: set<CaptureId>,
                       counted: set<CaptureId>)
    requires Accounted(session, sid, captured, counted)
    requires after.captureCount == session.captureCount + 1 && after.spooled == session.spooled
    ensures Accounted(after, sid, captured, counted + {id})
  {
    assert SpoolIds(after) == SpoolIds(session);
    assert counted + {id} == if id in counted then counted else counted + {id};
  }

  lemma InvUpdate(s: Store, t: Store, captured: set<Key>, more: set<Key>, sid: SessionId, after: Session)
    requires Inv(s, captured) && sid in s.sessions && t.sessions == s.sessions[sid := after]
    requires t.counted <= t.metadata && forall k | k in more :: k in captured || k.0 == sid
    requires Accounted(after, sid, Of(more, sid), Of(t.counted, sid))
    requires forall other | other != sid :: Of(more, other) == Of(captured, other)
    requires forall other | other != sid :: Of(t.counted, other) == Of(s.counted, other)
    ensures Inv(t, more)
  {
    hide Accounted, Of;
  }

  lemma AppendKeeps(s: Store, captured: set<Key>, sid: SessionId, c: Capture)
    requires Inv(s, captured) && Safe(s, AppendSpool(sid, c))
    ensures Inv(Do(s, AppendSpool(sid, c)), captured + {(sid, c.id)})
  {
    hide Without, Accounted, DistinctIds, AllOf;
    var session, t := s.sessions[sid], Do(s, AppendSpool(sid, c));
    AppendAccounted(session, sid, c, Of(captured, sid), Of(s.counted, sid));
    forall other ensures Of(captured + {(sid, c.id)}, other)
      == if other == sid then Of(captured, sid) + {c.id} else Of(captured, other)
    {
      OfAdd(captured, sid, c.id, other);
    }
    hide Accounted, Of;
    InvUpdate(s, t, captured, captured + {(sid, c.id)}, sid, t.sessions[sid]);
  }

  lemma CountKeeps(s: Store, captured: set<Key>, sid: SessionId, id: CaptureId, at: string)
    requires Inv(s, captured) && Safe(s, CountCapture(sid, id, at))
    ensures Inv(Do(s, CountCapture(sid, id, at)), captured)
  {
    var session, t := s.sessions[sid], Do(s, CountCapture(sid, id, at));
    CountAccounted(session, t.sessions[sid], sid, id, Of(captured, sid), Of(s.counted, sid));
    forall other ensures Of(t.counted, other)
      == if other == sid then Of(s.counted, sid) + {id} else Of(s.counted, other)
    {
      OfAdd(s.counted, sid, id, other);
    }
    hide Accounted, Of;
    InvUpdate(s, t, captured, captured, sid, t.sessions[sid]);
  }

  lemma SpoolKeeps(s: Store, captured: set<Key>, w: Write)
    requires Inv(s, captured) && Safe(s, w) && (w.RemoveSpooled? || w.ReplaceSpool?)
    ensures Inv(Do(s, w), captured)
  {
    var session, t := s.sessions[w.sid], Do(s, w);
    match w {
      case RemoveSpooled(sid, id) =>
        assert (sid, id) in s.counted && id in Of(s.counted, sid);
        RemoveAccounted(session, sid, id, Of(captured, sid), Of(s.counted, sid));
      case ReplaceSpool(sid, remaining) =>
        forall c | c in Spool(session) ensures c in remaining || c.id in Of(s.counted, sid) {
          if c !in remaining { assert (sid, c.id) in s.counted; }
        }
        ReplaceAccounted(session, sid, remaining, Of(captured, sid), Of(s.counted, sid));
    }
    hide Accounted, Of;
    InvUpdate(s, t, captured, captured, w.sid, t.sessions[w.sid]);
  }

  lemma PlainKeeps(s: Store, captured: set<Key>, w: Write)
    requires Inv(s, captured) && Safe(s, w) && (w.RecordError? || w.WritePlan? || w.StoreMetadata?)
    ensures Inv(Do(s, w), captured)
  {
    hide Without, Accounted, DistinctIds, AllOf;
    var session, t := s.sessions[w.sid], Do(s, w);
    PlainAccounted(session, t.sessions[w.sid], w.sid, Of(captured, w.sid), Of(s.counted, w.sid));
    hide Accounted, Of;
    assert t.sessions == s.sessions[w.sid := t.sessions[w.sid]];
    InvUpdate(s, t, captured, captured, w.sid, t.sessions[w.sid]);
  }

  lemma CapturedOne(w: Write)
    ensures Captured([w]) == if w.AppendSpool? then {(w.sid, w.capture.id)} else {}
  {
    assert forall x | x in [w] :: x == w;
    if w.AppendSpool? { assert w in [w]; }
  }

  /** A safe write keeps every capture accounted for. */
  lemma SafeKeeps(s: Store, captured: set<Key>, w: Write)
    requires Inv(s, captured) && Safe(s, w)
    ensures Inv(Do(s, w), captured + Captured([w]))
  {
    CapturedOne(w);
    assert captured + {} == captured;
    hide Inv, Do, Captured, Safe;
    match w {
      case AppendSpool(sid, c) => AppendKeeps(s, captured, sid, c);
      case CountCapture(sid, id, at) => CountKeeps(s, captured, sid, id, at);
      case RemoveSpooled(_, _) => SpoolKeeps(s, captured, w);
      case ReplaceSpool(_, _) => SpoolKeeps(s, captured, w);
      case _ => PlainKeeps(s, captured, w);
    }
  }

  /** Every write of the sequence is safe in the store it meets. */
  ghost predicate AllSafe(s: Store, ws: seq<Write>)
    requires Addressed(s, ws)
  {
    ws == [] || (
      var n := |ws| - 1;
      assert forall w | w in ws[..n] :: w in ws;
      AllSafe(s, ws[..n]) && Safe(Replay(s, ws[..n]), ws[n]))
  }

  lemma CapturedConcat(a: seq<Write>, b: seq<Write>)
    ensures Captured(a + b) == Captured(a) + Captured(b)
  {
    assert forall w | w in a + b :: w in a || w in b;
    assert forall w | w in a || w in b :: w in a + b;
  }

  lemma PrefixAddressed(s: Store, ws: seq<Write>, n: nat)
    requires Addressed(s, ws) && n <= |ws|
    ensures Addressed(s, ws[..n])
  {
    assert forall w | w in ws[..n] :: w in ws;
  }

  lemma {:induction false} PrefixSafe(s: Store, ws: seq<Write>, n: nat)
    requires Addressed(s, ws) && AllSafe(s, ws) && n <= |ws|
    ensures Addressed(s, ws[..n]) && AllSafe(s, ws[..n])
    decreases |ws|
  {
    hide Safe, Replay;
    PrefixAddressed(s, ws, n);
    if n == |ws| {
      assert ws[..n] == ws;
    } else {
      PrefixAddressed(s, ws, |ws| - 1);
      PrefixSafe(s, ws[..|ws| - 1], n);
      assert ws[..|ws| - 1][..n] == ws[..n];
    }
  }

  lemma {:induction false} AllSafeKeeps(s: Store, captured: set<Key>, ws: seq<Write>)
    requires Inv(s, captured) && Addressed(s, ws) && AllSafe(s, ws)
    ensures Inv(Replay(s, ws), captured + Captured(ws))
    decreases |ws|
  {
    hide Inv, Safe, Do;
    if ws == [] {
      assert captured + Captured(ws) == captured;
    } else {
      hide Captured;
      var m := |ws| - 1;
      assert ws == ws[..m] + [ws[m]];
      PrefixAddressed(s, ws, m);
      AllSafeKeeps(s, captured, ws[..m]);
      SafeKeeps(Replay(s, ws[..m]), captured + Captured(ws[..m]), ws[m]);
      CapturedConcat(ws[..m], [ws[m]]);
      assert captured + Captured(ws[..m]) + Captured([ws[m]]) == captured + Captured(ws);
    }
  }

  /** Cut a safe sequence anywhere: what has been captured so far is accounted for. */
  lemma CutAnywhere(s: Store, captured: set<Key>, ws: seq<Write>, n: nat)
    requires Inv(s, captured) && Addressed(s, ws) && AllSafe(s, ws) && n <= |ws|
    ensures Addressed(s, ws[..n]) && Inv(Replay(s, ws[..n]), captured + Captured(ws[..n]))
  {
    hide Inv, AllSafe;
    PrefixSafe(s, ws, n);
    AllSafeKeeps(s, captured, ws[..n]);
  }

  lemma {:induction false} ReplayConcat(s: Store, a: seq<Write>, b: seq<Write>)
    requires Addressed(s, a) && Addressed(s, b)
    ensures Addressed(s, a + b) && Replay(s, a + b) == Replay(Replay(s, a), b)
    ensures AllSafe(s, a) && AllSafe(Replay(s, a), b) ==> AllSafe(s, a + b)
    decreases |b|
  {
    hide Safe, Do;
    assert forall w | w in a + b :: w in a || w in b;
    if b == [] {
      assert a + b == a;
    } else {
      var n := |b| - 1;
      PrefixAddressed(s, b, n);
      ReplayConcat(s, a, b[..n]);
      assert (a + b)[..|a + b| - 1] == a + b[..n];
      assert (a + b)[|a + b| - 1] == b[n];
    }
  }

  lemma PlainAccounted(session: Session, after: Session, sid: SessionId, captured: set<CaptureId>, counted: set<CaptureId>)
    requires Accounted(session, sid, captured, counted)
    requires after.captureCount == session.captureCount && after.spooled == session.spooled
    ensures Accounted(after, sid, captured, counted)
  {
    assert SpoolIds(after) == SpoolIds(session);
  }

  lemma SafeStep(s: Store, ws: seq<Write>, w: Write)
    requires Addressed(s, ws) && AllSafe(s, ws) && Safe(Replay(s, ws), w)
    ensures Addressed(s, ws + [w]) && AllSafe(s, ws + [w]) && Replay(s, ws + [w]) == Do(Replay(s, ws), w)
  {
    hide Safe, Do;
    assert w.sid in s.sessions by { SafeAddressed(Replay(s, ws), w); }
    ReplayStep(s, ws, w);
    assert (ws + [w])[..|ws + [w]| - 1] == ws;
  }

  lemma SafeAddressed(s: Store, w: Write)
    requires Safe(s, w)
    ensures w.sid in s.sessions
  {
  }

  /** Each write of a capture is safe where it stands. */
  lemma CaptureSafe(s: Store, c: Capture, remoteOk: bool, copyOk: bool)
    requires c.session in s.sessions
    ensures Addressed(s, CaptureWrites(c, remoteOk, copyOk)) && AllSafe(s, CaptureWrites(c, remoteOk, copyOk))
  {
    hide AllSafe, Replay, Do, SyncedWrites;
    NothingSafe(s);
    SyncedParts(c);
    if !remoteOk {
      SafeStep(s, [], RecordError(c.session, "capture_failed"));
      assert [] + [RecordError(c.session, "capture_failed")] == CaptureWrites(c, remoteOk, copyOk);
      return;
    }
    SafeStep(s, [], AppendSpool(c.session, c));
    var spooled := [AppendSpool(c.session, c)];
    assert [] + [AppendSpool(c.session, c)] == spooled;
    if !copyOk {
      SafeStep(s, spooled, RecordError(c.session, "copy_failed"));
      assert spooled + [RecordError(c.session, "copy_failed")] == CaptureWrites(c, remoteOk, copyOk);
      return;
    }
    SyncedSafe(s, spooled, c);
    SafeStep(s, spooled + SyncedWrites(c), RemoveSpooled(c.session, c.id));
    assert spooled + SyncedWrites(c) + [RemoveSpooled(c.session, c.id)] == CaptureWrites(c, true, true);
  }

  lemma SyncedParts(c: Capture)
    ensures SyncedWrites(c) == [StoreMetadata(c.session, c.id), CountCapture(c.session, c.id, c.capturedAt)]
  {
  }

  lemma NothingSafe(s: Store)
    ensures Addressed(s, []) && AllSafe(s, []) && Replay(s, []) == s
  {
  }

  predicate SameSpools(s: Store, t: Store) {
    s.sessions.Keys == t.sessions.Keys && forall sid | sid in s.sessions :: t.sessions[sid].spooled == s.sessions[sid].spooled
  }

  /** Storing and counting a copied capture is safe, and leaves every spool as it is. */
  lemma SyncedSafe(s: Store, ws: seq<Write>, c: Capture)
    requires Addressed(s, ws) && AllSafe(s, ws) && c.session in s.sessions
    ensures Addressed(s, ws + SyncedWrites(c)) && AllSafe(s, ws + SyncedWrites(c))
    ensures
      var t, u := Replay(s, ws), Replay(s, ws + SyncedWrites(c));
      SameSpools(t, u) && u.counted == t.counted + {(c.session, c.id)}
  {
    hide AllSafe, Replay;
    var store, count := StoreMetadata(c.session, c.id), CountCapture(c.session, c.id, c.capturedAt);
    SafeStep(s, ws, store);
    SafeStep(s, ws + [store], count);
    assert ws + [store] + [count] == ws + SyncedWrites(c);
  }

  function CopiedKeys(spool: seq<Capture>, copy: Capture -> Copy): set<Key> {
    set c | c in spool && copy(c).Copied? :: (c.session, c.id)
  }

  lemma CopiedKeysStep(spool: seq<Capture>, copy: Capture -> Copy, c: Capture)
    ensures CopiedKeys(spool + [c], copy)
      == CopiedKeys(spool, copy) + if copy(c).Copied? then {(c.session, c.id)} else {}
  {
    assert forall x | x in spool + [c] :: x in spool || x == c;
    assert forall x | x in spool || x == c :: x in spool + [c];
  }

  lemma {:induction false} ItemsSafe(s: Store, spool: seq<Capture>, copy: Capture -> Copy)
    requires forall c | c in spool :: c.session in s.sessions
    ensures Addressed(s, ItemWrites(spool, copy)) && AllSafe(s, ItemWrites(spool, copy))
    ensures
      var t := Replay(s, ItemWrites(spool, copy));
      SameSpools(s, t) && t.counted == s.counted + CopiedKeys(spool, copy)
  {
    hide AllSafe, Replay, SyncedWrites;
    if spool == [] {
      NothingSafe(s);
    } else {
      var last := |spool| - 1;
      assert spool == spool[..last] + [spool[last]];
      ItemsSafe(s, spool[..last], copy);
      CopiedKeysStep(spool[..last], copy, spool[last]);
      hide CopiedKeys;
      var before := ItemWrites(spool[..last], copy);
      if copy(spool[last]).Copied? {
        SyncedSafe(s, before, spool[last]);
      } else {
        assert before + [] == before;
      }
    }
  }

  lemma RemainingSafe(s: Store, sid: SessionId, spool: seq<Capture>, copy: Capture -> Copy)
    requires sid in s.sessions && Spool(s.sessions[sid]) == spool && AllOf(sid, spool) && DistinctIds(spool)
    requires CopiedKeys(spool, copy) <= s.counted && forall c | c in spool :: !copy(c).UnknownDevice?
    ensures Safe(s, ReplaceSpool(sid, Remaining(spool, copy)))
  {
    FilterDistinct((c: Capture) => copy(c).CopyFailed?, spool);
    forall c | c in spool ensures c in Remaining(spool, copy) || (sid, c.id) in s.counted {
      if copy(c).Copied? { assert (c.session, c.id) in CopiedKeys(spool, copy); }
    }
  }

  /** Synchronizing one session is safe, and changes no spool but its own. */
  lemma SessionSafe(s: Store, sid: SessionId, session: Session, copy: Capture -> Copy)
    requires sid in s.sessions && s.sessions[sid].spooled == session.spooled
    requires AllOf(sid, Spool(session)) && DistinctIds(Spool(session))
    ensures Addressed(s, SessionWrites(sid, session, copy).0) && AllSafe(s, SessionWrites(sid, session, copy).0)
    ensures
      var t := Replay(s, SessionWrites(sid, session, copy).0);
      forall other | other in s.sessions && other != sid :: t.sessions[other].spooled == s.sessions[other].spooled
  {
    hide AllSafe, Replay, ItemWrites, Remaining;
    if session.spooled.None? {
      NothingSafe(s);
      return;
    }
    var spool := session.spooled.value;
    var n := KnownDevices(spool, copy);
    ItemsSafe(s, spool[..n], copy);
    if n == |spool| {
      assert spool[..n] == spool;
      var t := Replay(s, ItemWrites(spool, copy));
      forall c | c in spool ensures !copy(c).UnknownDevice? {
        var k :| 0 <= k < |spool| && spool[k] == c;
      }
      RemainingSafe(t, sid, spool, copy);
      SafeStep(s, ItemWrites(spool, copy), ReplaceSpool(sid, Remaining(spool, copy)));
    }
  }
}
