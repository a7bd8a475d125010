/** Counter and spool add up exactly between operations, unless a synchronization stops after it has copied something. */
module SpoolBoundaries {
  import opened Prelude
  import opened BakeCam
  import opened CapturePlan
  import opened SpoolSafety
  import opened SpoolRuns
  import opened SpoolBalance

  /** In every session, captures counted and captures spooled make up the captures taken. */
  ghost predicate Sums(s: Store, captured: set<Key>) {
    forall sid | sid in s.sessions :: s.sessions[sid].captureCount + |Spool(s.sessions[sid])| == |Of(captured, sid)|
  }

  lemma UnionCard(a: set<CaptureId>, b: set<CaptureId>)
    ensures |a + b| <= |a| + |b|
    ensures |a + b| == |a| + |b| <==> a !! b
  {
    assert a + b == a + (b - a);
    assert b == (b - a) + (a * b);
  }

  lemma SubsetSame(a: set<CaptureId>, b: set<CaptureId>)
    requires a <= b && |a| == |b|
    ensures a == b
  {
    assert b == a + (b - a);
  }

  lemma SplitSums(session: Session, sid: SessionId, captured: set<CaptureId>, counted: set<CaptureId>)
    requires Accounted(session, sid, captured, counted) && session.captureCount == |counted|
    ensures Split(session, captured, counted) <==> session.captureCount + |Spool(session)| == |captured|
  {
    var all := SpoolIds(session) + counted;
    IdsAtMost(Spool(session));
    UnionCard(SpoolIds(session), counted);
    SubsetCard(captured, all);
    if |captured| == |all| { SubsetSame(captured, all); }
  }

  /** The sums are right exactly when no capture is both spooled and counted, or neither. */
  lemma SplitsSums(s: Store, captured: set<Key>)
    requires Inv(s, captured) && Exact(s)
    ensures Splits(s, captured) <==> Sums(s, captured)
  {
    forall sid | sid in s.sessions
      ensures Split(s.sessions[sid], Of(captured, sid), Of(s.counted, sid))
        <==> s.sessions[sid].captureCount + |Spool(s.sessions[sid])| == |Of(captured, sid)|
    {
      SplitSums(s.sessions[sid], sid, Of(captured, sid), Of(s.counted, sid));
    }
    hide Inv, Exact, Of, Split;
  }

  lemma WithoutIds(session: Session, after: Session, id: CaptureId)
    requires after.spooled == Some(Without(Spool(session), id))
    ensures SpoolIds(after) == SpoolIds(session) - {id}
  {
    forall c | c in Spool(session) && c.id != id ensures c in Spool(after) {
    }
  }

  lemma WithIds(session: Session, after: Session, c: Capture)
    requires after.spooled == Some(Without(Spool(session), c.id) + [c])
    ensures SpoolIds(after) == SpoolIds(session) + {c.id}
  {
    var rest := session.(spooled := Some(Without(Spool(session), c.id)));
    WithoutIds(session, rest, c.id);
    assert forall x | x in Spool(after) :: x in Spool(rest) || x == c;
    assert c in Spool(after) && forall x | x in Spool(rest) :: x in Spool(after);
  }

  lemma SameIds(session: Session, after: Session)
    requires after.spooled == session.spooled
    ensures SpoolIds(after) == SpoolIds(session)
  {
  }

  /** What a capture leaves behind, however it ends. */
  lemma CaptureEffect(s: Store, c: Capture, remoteOk: bool, copyOk: bool)
    requires c.session in s.sessions && c.id !in SpoolIds(s.sessions[c.session])
    ensures Addressed(s, CaptureWrites(c, remoteOk, copyOk))
    ensures
      var t := Replay(s, CaptureWrites(c, remoteOk, copyOk));
      && (forall sid | sid in s.sessions && sid != c.session :: t.sessions[sid] == s.sessions[sid])
      && t.counted == s.counted + (if remoteOk && copyOk then {(c.session, c.id)} else {})
      && SpoolIds(t.sessions[c.session]) == SpoolIds(s.sessions[c.session]) + if remoteOk && !copyOk then {c.id} else {}
  {
    hide Replay, SpoolIds, Without;
    NothingSafe(s);
    var ws := CaptureWrites(c, remoteOk, copyOk);
    ReplayStep(s, [], ws[0]);
    assert [] + [ws[0]] == ws[..1];
    if !remoteOk {
      assert ws[..1] == ws;
      SameIds(s.sessions[c.session], Replay(s, ws).sessions[c.session]);
      return;
    }
    WithIds(s.sessions[c.session], Replay(s, ws[..1]).sessions[c.session], c);
    ReplayStep(s, ws[..1], ws[1]);
    assert ws[..1] + [ws[1]] == ws[..2];
    if !copyOk {
      assert ws[..2] == ws;
      SameIds(Replay(s, ws[..1]).sessions[c.session], Replay(s, ws).sessions[c.session]);
      return;
    }
    ReplayStep(s, ws[..2], ws[2]);
    assert ws[..2] + [ws[2]] == ws[..3];
    ReplayStep(s, ws[..3], ws[3]);
    assert ws[..3] + [ws[3]] == ws;
    SameIds(Replay(s, ws[..1]).sessions[c.session], Replay(s, ws[..3]).sessions[c.session]);
    WithoutIds(Replay(s, ws[..3]).sessions[c.session], Replay(s, ws).sessions[c.session], c.id);
  }

  lemma CaptureFresh(s: Store, c: Capture, remoteOk: bool, copyOk: bool)
    requires c.session in s.sessions && (c.session, c.id) !in s.counted
    ensures Addressed(s, CaptureWrites(c, remoteOk, copyOk)) && AllFresh(s, CaptureWrites(c, remoteOk, copyOk))
  {
    if remoteOk && copyOk {
      SpooledFresh(s, c, StoreMetadata(c.session, c.id));
      CopiedFresh(s, c);
    } else if remoteOk {
      SpooledFresh(s, c, RecordError(c.session, "copy_failed"));
    } else {
      var w := RecordError(c.session, "capture_failed");
      NothingFresh(s);
      FreshStep(s, [], w);
      assert [] + [w] == CaptureWrites(c, remoteOk, copyOk);
    }
  }

  lemma SpooledFresh(s: Store, c: Capture, w: Write)
    requires w.sid == c.session && c.session in s.sessions && (w.StoreMetadata? || w.RecordError?)
    ensures
      var v := AppendSpool(c.session, c);
      Addressed(s, [v, w]) && AllFresh(s, [v, w]) && Replay(s, [v, w]).counted == s.counted
  {
    var v := AppendSpool(c.session, c);
    NothingFresh(s);
    FreshStep(s, [], v);
    FreshStep(s, [v], w);
    hide Replay, AllFresh, Addressed;
    assert [] + [v] == [v] && [v] + [w] == [v, w];
  }

  lemma CopiedFresh(s: Store, c: Capture)
    requires c.session in s.sessions && (c.session, c.id) !in s.counted
    requires
      var ws := [AppendSpool(c.session, c), StoreMetadata(c.session, c.id)];
      Addressed(s, ws) && AllFresh(s, ws) && Replay(s, ws).counted == s.counted
    ensures Addressed(s, CaptureWrites(c, true, true)) && AllFresh(s, CaptureWrites(c, true, true))
  {
    hide Replay, AllFresh, Addressed;
    var ws := [AppendSpool(c.session, c), StoreMetadata(c.session, c.id)];
    var count, remove := CountCapture(c.session, c.id, c.capturedAt), RemoveSpooled(c.session, c.id);
    FreshStep(s, ws, count);
    FreshStep(s, ws + [count], remove);
    assert ws + [count] + [remove] == CaptureWrites(c, true, true);
  }

  lemma CaptureCaptured(c: Capture, remoteOk: bool, copyOk: bool)
    ensures Captured(CaptureWrites(c, remoteOk, copyOk)) == if remoteOk then {(c.session, c.id)} else {}
  {
    if remoteOk { assert AppendSpool(c.session, c) in CaptureWrites(c, remoteOk, copyOk); }
  }

  lemma NewId(s: Store, captured: set<Key>, c: Capture)
    requires Splits(s, captured) && c.session in s.sessions && (c.session, c.id) !in captured
    ensures c.id !in SpoolIds(s.sessions[c.session]) && (c.session, c.id) !in s.counted
  {
    assert Split(s.sessions[c.session], Of(captured, c.session), Of(s.counted, c.session));
    assert c.id !in Of(captured, c.session);
    assert (c.session, c.id) in s.counted ==> c.id in Of(s.counted, c.session);
  }

  /** A capture with a new id, however it ends, leaves the store balanced. */
  lemma CaptureBalanced(s: Store, captured: set<Key>, c: Capture, remoteOk: bool, copyOk: bool)
    requires Balanced(s, captured) && c.session in s.sessions && (c.session, c.id) !in captured
    ensures
      var ws := CaptureWrites(c, remoteOk, copyOk);
      Addressed(s, ws) && Balanced(Replay(s, ws), captured + Captured(ws))
  {
    hide Inv, Exact, Splits, Replay, AllSafe, AllFresh, CaptureWrites;
    var ws := CaptureWrites(c, remoteOk, copyOk);
    NewId(s, captured, c);
    CaptureSafe(s, c, remoteOk, copyOk);
    AllSafeKeeps(s, captured, ws);
    CaptureFresh(s, c, remoteOk, copyOk);
    AllFreshKeeps(s, ws);
    CaptureEffect(s, c, remoteOk, copyOk);
    CaptureCaptured(c, remoteOk, copyOk);
    CapturedSplits(s, Replay(s, ws), captured, c, remoteOk, copyOk);
  }

  lemma CapturedOf(keys: set<Key>, c: Capture, added: bool, sid: SessionId)
    ensures Of(keys + if added then {(c.session, c.id)} else {}, sid)
      == Of(keys, sid) + if added && sid == c.session then {c.id} else {}
  {
    OfAdd(keys, c.session, c.id, sid);
    assert keys + {} == keys;
  }

  lemma NewIdSplit(s: Store, captured: set<Key>, c: Capture)
    requires Splits(s, captured) && c.session in s.sessions && (c.session, c.id) !in captured
    ensures Split(s.sessions[c.session], Of(captured, c.session), Of(s.counted, c.session))
    ensures c.id !in SpoolIds(s.sessions[c.session]) && c.id !in Of(s.counted, c.session)
  {
    NewId(s, captured, c);
  }

  lemma CapturedSplits(s: Store, t: Store, captured: set<Key>, c: Capture, remoteOk: bool, copyOk: bool)
    requires Splits(s, captured) && c.session in s.sessions && (c.session, c.id) !in captured
    requires t.sessions.Keys == s.sessions.Keys
    requires forall sid | sid in s.sessions && sid != c.session :: t.sessions[sid] == s.sessions[sid]
    requires t.counted == s.counted + if remoteOk && copyOk then {(c.session, c.id)} else {}
    requires SpoolIds(t.sessions[c.session])
      == SpoolIds(s.sessions[c.session]) + if remoteOk && !copyOk then {c.id} else {}
    ensures Splits(t, captured + if remoteOk then {(c.session, c.id)} else {})
  {
    hide Of, Splits, SpoolIds;
    var more := captured + if remoteOk then {(c.session, c.id)} else {};
    NewIdSplit(s, captured, c);
    forall sid
      ensures Of(more, sid) == Of(captured, sid) + if remoteOk && sid == c.session then {c.id} else {}
      ensures Of(t.counted, sid) == Of(s.counted, sid) + if remoteOk && copyOk && sid == c.session then {c.id} else {}
    {
      CapturedOf(captured, c, remoteOk, sid);
      CapturedOf(s.counted, c, remoteOk && copyOk, sid);
    }
    assert Split(t.sessions[c.session], Of(more, c.session), Of(t.counted, c.session));
    hide Split;
    SplitsUpdate(s, t, captured, more, c.session);
  }

  /** Nothing has been copied before the first unknown device. */
  predicate CleanSession(session: Session, copy: Capture -> Copy) {
    var n := KnownDevices(Spool(session), copy);
    n < |Spool(session)| ==> forall k | 0 <= k < n :: copy(Spool(session)[k]).CopyFailed?
  }

  /** The batch never stops at an unknown device after it has copied something from the same session. */
  predicate Clean(s: Store, sids: seq<SessionId>, copy: Capture -> Copy)
    requires forall sid | sid in sids :: sid in s.sessions
  {
    if sids == [] then true else
    assert sids == sids[..|sids| - 1] + [sids[|sids| - 1]];
    var last := sids[|sids| - 1];
    Clean(s, sids[..|sids| - 1], copy)
    && (SyncWrites(s, sids[..|sids| - 1], copy).1 ==> CleanSession(s.sessions[last], copy))
  }

  lemma {:induction false} FailedItems(items: seq<Capture>, copy: Capture -> Copy)
    requires forall k | 0 <= k < |items| :: copy(items[k]).CopyFailed?
    ensures ItemWrites(items, copy) == []
  {
    if items != [] { FailedItems(items[..|items| - 1], copy); }
  }

  /** A session in which the batch stops stays balanced exactly when nothing has been copied. */
  lemma StoppedSession(s: Store, captured: set<Key>, sid: SessionId, session: Session, copy: Capture -> Copy)
    requires Balanced(s, captured) && sid in s.sessions && s.sessions[sid].spooled == session.spooled
    requires !SessionWrites(sid, session, copy).1
    ensures Addressed(s, SessionWrites(sid, session, copy).0)
    ensures
      var t := Replay(s, SessionWrites(sid, session, copy).0);
      Inv(t, captured) && Exact(t) && (Splits(t, captured) <==> CleanSession(session, copy))
  {
    hide Exact, Splits, AllSafe, Replay, ItemWrites, Inv;
    LoadedSound(s, captured, sid);
    var spool := Spool(session);
    var n := KnownDevices(spool, copy);
    var items := spool[..n];
    ItemsSafe(s, items, copy);
    AllSafeKeeps(s, captured, ItemWrites(items, copy));
    ItemsCaptureNothing(items, copy);
    assert captured + {} == captured;
    ItemsExact(s, captured, sid, items, copy);
    if CleanSession(session, copy) {
      FailedItems(items, copy);
      NothingSafe(s);
    } else {
      var k :| 0 <= k < n && !copy(spool[k]).CopyFailed?;
      assert items[k] in items;
      CopiedTwice(Replay(s, ItemWrites(items, copy)), captured, sid, spool[k]) by {
        assert (sid, spool[k].id) in CopiedKeys(items, copy);
      }
    }
  }

  lemma CopiedTwice(t: Store, captured: set<Key>, sid: SessionId, c: Capture)
    requires sid in t.sessions && c in Spool(t.sessions[sid]) && (sid, c.id) in t.counted
    ensures !Splits(t, captured)
  {
    assert c.id in SpoolIds(t.sessions[sid]) && c.id in Of(t.counted, sid);
    assert !Split(t.sessions[sid], Of(captured, sid), Of(t.counted, sid));
  }

  lemma {:induction false} BatchBalanced(s: Store, captured: set<Key>, sids: seq<SessionId>, copy: Capture -> Copy, i: nat)
    requires Balanced(s, captured) && Distinct(sids) && i <= |sids| && forall sid | sid in sids :: sid in s.sessions
    requires forall sid | sid in sids[..i] :: sid in s.sessions
    ensures Addressed(s, SyncWrites(s, sids[..i], copy).0)
    ensures
      var t := Replay(s, SyncWrites(s, sids[..i], copy).0);
      && Inv(t, captured) && Exact(t)
      && (Splits(t, captured) <==> Clean(s, sids[..i], copy))
      && (SyncWrites(s, sids[..i], copy).1 ==> Clean(s, sids[..i], copy))
  {
    hide Inv, Exact, Splits, Replay, AllSafe, SessionWrites, SyncWrites, CleanSession, Distinct;
    BatchSafe(s, captured, sids, copy, i);
    if i == 0 {
      assert sids[..i] == [];
      SyncNothing(s, copy);
      NothingSafe(s);
    } else {
      assert sids[..i][..i - 1] == sids[..i - 1] && sids[..i][i - 1] == sids[i - 1];
      BatchBalanced(s, captured, sids, copy, i - 1);
      BatchSafe(s, captured, sids, copy, i - 1);
      var before := SyncWrites(s, sids[..i - 1], copy);
      if before.1 {
        BatchStep(s, sids, copy, i - 1);
        var t, sid := Replay(s, before.0), sids[i - 1];
        var session := s.sessions[sid];
        var (writes, goesOn) := SessionWrites(sid, session, copy);
        if goesOn {
          SessionBalanced(t, captured, sid, session, copy);
          GoesOnClean(sid, session, copy);
        } else {
          StoppedSession(t, captured, sid, session, copy);
        }
        ReplayConcat(s, before.0, writes);
      } else {
        StoppedBatch(s, sids[..i], copy, i - 1);
      }
    }
  }

  lemma GoesOnClean(sid: SessionId, session: Session, copy: Capture -> Copy)
    requires SessionWrites(sid, session, copy).1
    ensures CleanSession(session, copy)
  {
  }

  /** A completed synchronization leaves the sums right exactly when it never stopped after a copy. */
  lemma SyncSums(s: Store, captured: set<Key>, sids: seq<SessionId>, copy: Capture -> Copy)
    requires Balanced(s, captured) && Distinct(sids) && forall sid | sid in sids :: sid in s.sessions
    ensures Addressed(s, SyncWrites(s, sids, copy).0)
    ensures Sums(Replay(s, SyncWrites(s, sids, copy).0), captured) <==> Clean(s, sids, copy)
  {
    hide Inv, Exact, Splits, Sums, Replay, Clean, SyncWrites;
    assert sids[..|sids|] == sids;
    BatchBalanced(s, captured, sids, copy, |sids|);
    SplitsSums(Replay(s, SyncWrites(s, sids, copy).0), captured);
  }

  const FIRST := Capture("a", "s", "oven", "08:00", None)
  const SECOND := Capture("b", "s", "shelf", "09:00", None)

  /** Two captures in the spool of one session, none counted yet, and the error of the last copy. */
  function TwoSpooled(): Store {
    Store(map["s" := Session(0, None, Some("copy_failed"), Some([FIRST, SECOND]), [])], {}, {})
  }

  /** Both captures fail to be copied; then the spool is synchronized. No operation is cut short. */
  function TwoThenSync(copy: Capture -> Copy): seq<Step> {
    [Step(CaptureOp(FIRST, true, false), 2), Step(CaptureOp(SECOND, true, false), 2), Step(SyncOp(["s"], copy), 2)]
  }

  lemma TwoSpooledSession(session: Session)
    requires session == TwoSpooled().sessions["s"]
    ensures Accounted(session, "s", {"a", "b"}, {}) && Split(session, {"a", "b"}, {})
  {
    var spool := Spool(session);
    assert spool[0].id == "a" && spool[1].id == "b" && "a"[0] != "b"[0];
    assert SpoolIds(session) == {"a", "b"} by {
      assert spool[0] in spool && spool[1] in spool;
    }
  }

  lemma TwoSpooledBalanced()
    ensures Balanced(TwoSpooled(), {("s", "a"), ("s", "b")})
  {
    var s, captured := TwoSpooled(), {("s", "a"), ("s", "b")};
    TwoSpooledSession(s.sessions["s"]);
    hide Accounted, Split, SpoolIds;
    assert Of(captured, "s") == {"a", "b"} by {
      assert ("s", "a") in captured && ("s", "b") in captured;
    }
    assert Of(s.counted, "s") == {};
  }

  lemma CopiedThenUnknown(s: Store, sid: SessionId, copy: Capture -> Copy)
    requires sid in s.sessions && |Spool(s.sessions[sid])| == 2
    requires copy(Spool(s.sessions[sid])[0]).Copied? && copy(Spool(s.sessions[sid])[1]).UnknownDevice?
    ensures !Clean(s, [sid], copy)
  {
    var spool := Spool(s.sessions[sid]);
    assert KnownDevices(spool[1..], copy) == 0;
    assert !CleanSession(s.sessions[sid], copy);
    assert [sid][..0] == [] && SyncWrites(s, [], copy).1;
  }

  lemma FailedCapture(s: Store, c: Capture)
    requires c.session in s.sessions
    ensures
      var ws := CaptureWrites(c, true, false);
      && Addressed(s, ws)
      && Replay(s, ws) == Do(Do(s, AppendSpool(c.session, c)), RecordError(c.session, "copy_failed"))
  {
    var ws := CaptureWrites(c, true, false);
    assert ws[..1] == [AppendSpool(c.session, c)] && ws[..1][..0] == [];
    assert Replay(s, ws[..1][..0]) == s;
    assert Replay(s, ws[..1]) == Do(s, AppendSpool(c.session, c));
  }

  /** The first capture in the spool of the new session. */
  function OneSpooled(): Store {
    Store(map["s" := Session(0, None, Some("copy_failed"), Some([FIRST]), [])], {}, {})
  }

  lemma FirstSpooled()
    ensures
      var s := Created({"s"});
      Addressed(s, CaptureWrites(FIRST, true, false)) && Replay(s, CaptureWrites(FIRST, true, false)) == OneSpooled()
  {
    var s := Created({"s"});
    FailedCapture(s, FIRST);
    hide Replay;
    assert Without([], "a") + [FIRST] == [FIRST];
    assert Replay(s, CaptureWrites(FIRST, true, false)).sessions == OneSpooled().sessions;
  }

  lemma BothSpooled()
    ensures
      var s, t := Created({"s"}), Replay(Created({"s"}), CaptureWrites(FIRST, true, false));
      && Addressed(s, CaptureWrites(FIRST, true, false)) && Addressed(t, CaptureWrites(SECOND, true, false))
      && Replay(t, CaptureWrites(SECOND, true, false)) == TwoSpooled()
  {
    FirstSpooled();
    var t := OneSpooled();
    FailedCapture(t, SECOND);
    KeepsOther();
    hide Replay, Without;
    assert Replay(t, CaptureWrites(SECOND, true, false)).sessions == TwoSpooled().sessions;
  }

  lemma KeepsOther()
    ensures Without([FIRST], "b") + [SECOND] == [FIRST, SECOND]
  {
    assert "a"[0] != "b"[0] && [FIRST][1..] == [];
    assert Without([], "b") == [];
    assert Without([FIRST], "b") == [FIRST] + Without([FIRST][1..], "b");
  }

  lemma RunStep(s: Store, steps: seq<Step>, step: Step)
    ensures
      var (t, log) := Run(s, steps);
      var ws := Cut(OpWrites(t, step.op), step.cut);
      Run(s, steps + [step]) == if Addressed(t, ws) then (Replay(t, ws), log + ws) else (t, log)
  {
    var all := steps + [step];
    assert all[..|all| - 1] == steps && all[|all| - 1] == step;
    assert Run(s, all) == (
      var (t, log) := Run(s, all[..|all| - 1]);
      var ws := Cut(OpWrites(t, all[|all| - 1].op), all[|all| - 1].cut);
      if Addressed(t, ws) then (Replay(t, ws), log + ws) else (t, log));
    hide Run, Replay, Addressed, OpWrites, Cut;
  }

  /** One more operation that is allowed all its writes. */
  lemma RunWhole(s: Store, steps: seq<Step>, step: Step, t: Store, log: seq<Write>, ws: seq<Write>)
    requires Run(s, steps) == (t, log) && ws == OpWrites(t, step.op) && Addressed(t, ws) && |ws| <= step.cut
    ensures Run(s, steps + [step]) == (Replay(t, ws), log + ws)
  {
    RunStep(s, steps, step);
    hide Run, OpWrites, Replay, Addressed;
  }

  lemma TwoThenSyncRuns(copy: Capture -> Copy)
    requires copy(FIRST).Copied? && copy(SECOND).UnknownDevice?
    ensures
      var (t, log) := Run(Created({"s"}), TwoThenSync(copy));
      && Addressed(TwoSpooled(), SyncWrites(TwoSpooled(), ["s"], copy).0)
      && t == Replay(TwoSpooled(), SyncWrites(TwoSpooled(), ["s"], copy).0)
      && Captured(log) == {("s", "a"), ("s", "b")}
  {
    hide Replay, Captured, TwoSpooled, Addressed, Run, SyncWrites;
    var s, steps := Created({"s"}), TwoThenSync(copy);
    var ws, vs, us := CaptureWrites(FIRST, true, false), CaptureWrites(SECOND, true, false), SyncedWrites(FIRST);
    RunNothing(s);
    BothSpooled();
    TwoSpooledWrites(copy);
    CapturedThree(ws, vs, us);
    CaptureCaptured(FIRST, true, false);
    CaptureCaptured(SECOND, true, false);
    var t := Replay(s, ws);
    assert "s" in s.sessions && "s" in t.sessions && "s" in TwoSpooled().sessions;
    RunWhole(s, [], steps[0], s, [], ws);
    assert [] + [steps[0]] == [steps[0]];
    RunWhole(s, [steps[0]], steps[1], t, [] + ws, vs);
    assert [steps[0]] + [steps[1]] == [steps[0], steps[1]];
    RunWhole(s, [steps[0], steps[1]], steps[2], TwoSpooled(), [] + ws + vs, us);
    assert [steps[0], steps[1]] + [steps[2]] == steps;
  }

  lemma RunNothing(s: Store)
    ensures Run(s, []) == (s, [])
  {
  }

  lemma CapturedThree(ws: seq<Write>, vs: seq<Write>, us: seq<Write>)
    ensures Captured([] + ws + vs + us) == Captured(ws) + Captured(vs) + Captured(us)
  {
    CapturedConcat([] + ws + vs, us);
    CapturedConcat([] + ws, vs);
    assert [] + ws == ws;
  }

  lemma TwoSpooledWrites(copy: Capture -> Copy)
    requires copy(FIRST).Copied? && copy(SECOND).UnknownDevice?
    ensures SyncWrites(TwoSpooled(), ["s"], copy).0 == SyncedWrites(FIRST)
    ensures Addressed(TwoSpooled(), SyncedWrites(FIRST)) && Captured(SyncedWrites(FIRST)) == {}
  {
    var session := TwoSpooled().sessions["s"];
    FirstUnknown(Spool(session), copy, 1);
    ItemStep(Spool(session), copy, 0);
    assert Spool(session)[..0] == [] && ItemWrites(Spool(session)[..0], copy) == [];
    SyncNothing(TwoSpooled(), copy);
    assert ["s"][..0] == [];
  }

  /** Two captures whose copies fail, in a newly created session: once a synchronization copies the first and finds the
      device of the second unknown, the first is both spooled and counted. */
  lemma StoppedAfterCopy(copy: Capture -> Copy)
    requires copy(FIRST).Copied? && copy(SECOND).UnknownDevice?
    ensures
      var (t, log) := Run(Created({"s"}), TwoThenSync(copy));
      && Captured(log) == {("s", "a"), ("s", "b")} && !Sums(t, Captured(log))
      && "s" in t.sessions && t.sessions["s"].captureCount == 1 && Spool(t.sessions["s"]) == [FIRST, SECOND]
  {
    TwoSpooledBalanced();
    CopiedThenUnknown(TwoSpooled(), "s", copy);
    SyncSums(TwoSpooled(), {("s", "a"), ("s", "b")}, ["s"], copy);
    TwoThenSyncRuns(copy);
    TwoSpooledWrites(copy);
    SyncedOnce();
    hide Balanced, Clean, SyncWrites, Sums, Replay, Addressed, Run;
  }

  lemma SyncedOnce()
    ensures Addressed(TwoSpooled(), SyncedWrites(FIRST))
    ensures
      var session := Replay(TwoSpooled(), SyncedWrites(FIRST)).sessions["s"];
      session.captureCount == 1 && Spool(session) == [FIRST, SECOND]
  {
    var s, ws := TwoSpooled(), SyncedWrites(FIRST);
    assert Addressed(s, []) && Replay(s, []) == s;
    ReplayStep(s, [], ws[0]);
    ReplayStep(s, [ws[0]], ws[1]);
    assert [] + [ws[0]] == [ws[0]] && [ws[0]] + [ws[1]] == ws;
  }

  lemma PlanSplits(s: Store, t: Store, captured: set<Key>, sid: SessionId)
    requires Splits(s, captured) && sid in s.sessions && t.sessions.Keys == s.sessions.Keys && t.counted == s.counted
    requires forall other | other in s.sessions :: t.sessions[other].spooled == s.sessions[other].spooled
    ensures Splits(t, captured)
  {
    assert Split(s.sessions[sid], Of(captured, sid), Of(s.counted, sid));
    assert SpoolIds(t.sessions[sid]) == SpoolIds(s.sessions[sid]);
    hide Of, Splits;
    SplitsUpdate(s, t, captured, captured, sid);
  }

  lemma PlanBalanced(s: Store, captured: set<Key>, sid: SessionId, plan: seq<PlanItem>)
    requires Balanced(s, captured) && sid in s.sessions
    ensures Addressed(s, [WritePlan(sid, plan)]) && Balanced(Replay(s, [WritePlan(sid, plan)]), captured)
  {
    hide Inv, Exact, Splits, Replay;
    var w := WritePlan(sid, plan);
    NothingSafe(s);
    ReplayStep(s, [], w);
    assert [] + [w] == [w];
    PlainKeeps(s, captured, w);
    ExactKeeps(s, w);
    PlanSplits(s, Do(s, w), captured, sid);
  }

  /** The operation runs to its end, and captures get new ids. */
  ghost predicate Whole(s: Store, captured: set<Key>, step: Step) {
    && WellFormed(step.op) && step.cut >= |OpWrites(s, step.op)|
    && (step.op.CaptureOp? ==> (step.op.capture.session, step.op.capture.id) !in captured)
  }

  /** No synchronization stops after a copy. */
  predicate CleanOp(s: Store, op: Op) {
    op.SyncOp? && (forall sid | sid in op.sids :: sid in s.sessions) ==> Clean(s, op.sids, op.copy)
  }

  ghost predicate Uncut(s: Store, captured: set<Key>, step: Step) { Whole(s, captured, step) && CleanOp(s, step.op) }

  lemma StepBalanced(s: Store, captured: set<Key>, step: Step)
    requires Balanced(s, captured) && Uncut(s, captured, step)
    ensures
      var ws := OpWrites(s, step.op);
      Cut(ws, step.cut) == ws && Addressed(s, ws) && Balanced(Replay(s, ws), captured + Captured(ws))
  {
    hide Inv, Exact, Splits, Replay, CaptureWrites, SyncWrites, Clean;
    NothingSafe(s);
    assert Captured([]) == {} && captured + {} == captured;
    match step.op {
      case CaptureOp(c, remoteOk, copyOk) =>
        if c.session in s.sessions { CaptureBalanced(s, captured, c, remoteOk, copyOk); }
      case SyncOp(sids, copy) =>
        if forall sid | sid in sids :: sid in s.sessions {
          assert sids[..|sids|] == sids;
          BatchBalanced(s, captured, sids, copy, |sids|);
          BatchCapturesNothing(s, sids, copy);
        }
      case PlanOp(sid, plan) =>
        if sid in s.sessions {
          PlanBalanced(s, captured, sid, plan);
          CapturedOne(WritePlan(sid, plan));
        }
    }
  }

  lemma {:induction false} BatchCapturesNothing(s: Store, sids: seq<SessionId>, copy: Capture -> Copy)
    requires forall sid | sid in sids :: sid in s.sessions
    ensures Captured(SyncWrites(s, sids, copy).0) == {}
  {
    if sids != [] {
      hide ItemWrites, Remaining, Captured;
      var n := |sids| - 1;
      var sid := sids[n];
      assert forall x | x in sids[..n] :: x in sids;
      BatchCapturesNothing(s, sids[..n], copy);
      SessionCapturesNothing(sid, s.sessions[sid], copy);
      var before := SyncWrites(s, sids[..n], copy);
      if before.1 { CapturedConcat(before.0, SessionWrites(sid, s.sessions[sid], copy).0); }
    }
  }

  lemma SessionCapturesNothing(sid: SessionId, session: Session, copy: Capture -> Copy)
    ensures Captured(SessionWrites(sid, session, copy).0) == {}
  {
    var spool := Spool(session);
    NoneCaptured(sid, spool, copy);
    ItemsCaptureNothing(spool[..KnownDevices(spool, copy)], copy);
  }

  ghost predicate UncutRun(s: Store, steps: seq<Step>)
    decreases |steps|
  {
    steps == [] || (
      var (t, log) := Run(s, steps[..|steps| - 1]);
      UncutRun(s, steps[..|steps| - 1]) && Uncut(t, Captured(log), steps[|steps| - 1]))
  }

  lemma {:induction false} RunBalanced(s: Store, steps: seq<Step>)
    requires Balanced(s, {}) && UncutRun(s, steps)
    ensures Balanced(Run(s, steps).0, Captured(Run(s, steps).1))
    decreases |steps|
  {
    hide Balanced, Uncut, Replay, OpWrites, Cut;
    if steps == [] {
      assert Captured([]) == {};
    } else {
      hide Captured;
      RunBalanced(s, steps[..|steps| - 1]);
      var (t, log) := Run(s, steps[..|steps| - 1]);
      StepBalanced(t, Captured(log), steps[|steps| - 1]);
      CapturedConcat(log, OpWrites(t, steps[|steps| - 1].op));
    }
  }

  /** After every operation of such a run, counter and spool add up to the captures taken. */
  lemma ExactAtBoundaries(created: set<SessionId>, steps: seq<Step>, sid: SessionId)
    requires sid in created && UncutRun(Created(created), steps)
    ensures
      var (t, log) := Run(Created(created), steps);
      sid in t.sessions && t.sessions[sid].captureCount + |Spool(t.sessions[sid])| == |Of(Captured(log), sid)|
  {
    hide UncutRun, Run, Captured, Of;
    FreshSessions(created);
    CreatedBalanced(created);
    RunBalanced(Created(created), steps);
    RunSessions(Created(created), steps);
    var (t, log) := Run(Created(created), steps);
    hide Inv, Exact, Splits;
    SplitsSums(t, Captured(log));
  }

  lemma CreatedBalanced(created: set<SessionId>)
    ensures Balanced(Created(created), {})
  {
    FreshSessions(created);
    forall sid ensures Of({}, sid) == {} {
    }
  }
}
