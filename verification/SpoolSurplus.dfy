/** By how much counter and spool exceed the captures taken: exactly by the copies of synchronizations that stopped. */
module SpoolSurplus {
  import opened Prelude
  import opened BakeCam
  import opened CapturePlan
  import opened SpoolSafety
  import opened SpoolRuns
  import opened SpoolBoundaries

  function Total(session: Session): nat { session.captureCount + |Spool(session)| }

  /** How many of the captures are copied. */
  function Copies(spool: seq<Capture>, copy: Capture -> Copy): nat {
    if spool == [] then 0
    else Copies(spool[..|spool| - 1], copy) + if copy(spool[|spool| - 1]).Copied? then 1 else 0
  }

  /** The copies a session's synchronization has counted, and left in the spool, when it stops. */
  function Wasted(session: Session, copy: Capture -> Copy): nat {
    var n := KnownDevices(Spool(session), copy);
    if n < |Spool(session)| then Copies(Spool(session)[..n], copy) else 0
  }

  /** The same for one session of a batch. */
  function BatchWaste(s: Store, sids: seq<SessionId>, copy: Capture -> Copy, sid: SessionId): nat
    requires forall x | x in sids :: x in s.sessions
  {
    if sids == [] then 0
    else
      assert sids == sids[..|sids| - 1] + [sids[|sids| - 1]];
      var last := sids[|sids| - 1];
      BatchWaste(s, sids[..|sids| - 1], copy, sid)
      + if last == sid && SyncWrites(s, sids[..|sids| - 1], copy).1 then Wasted(s.sessions[sid], copy) else 0
  }

  function OpWaste(s: Store, op: Op, sid: SessionId): nat {
    if op.SyncOp? && forall x | x in op.sids :: x in s.sessions then BatchWaste(s, op.sids, op.copy, sid) else 0
  }

  /** Nothing is spooled that was never captured. */
  ghost predicate Known(s: Store, captured: set<Key>) {
    forall sid | sid in s.sessions :: SpoolIds(s.sessions[sid]) <= Of(captured, sid)
  }

  lemma {:induction false} KeepAll(id: CaptureId, spool: seq<Capture>)
    requires forall c | c in spool :: c.id != id
    ensures Without(spool, id) == spool
  {
    if spool != [] {
      KeepAll(id, spool[1..]);
      assert Without(spool, id) == [spool[0]] + Without(spool[1..], id);
    }
  }

  lemma DropLast(spool: seq<Capture>, c: Capture)
    requires forall x | x in spool :: x.id != c.id
    ensures Without(spool + [c], c.id) == spool
  {
    KeepAll(c.id, spool);
    FilterConcat((x: Capture) => x.id != c.id, spool, [c]);
    assert [c][1..] == [];
    assert Without([c], c.id) == [];
  }

  /** The stores through which a capture passes that is copied at once. */
  lemma CopiedSteps(s: Store, c: Capture)
    requires c.session in s.sessions && forall x | x in Spool(s.sessions[c.session]) :: x.id != c.id
    ensures
      var session := s.sessions[c.session];
      var t := Do(Do(s, AppendSpool(c.session, c)), StoreMetadata(c.session, c.id));
      var u := Do(t, CountCapture(c.session, c.id, c.capturedAt));
      Do(u, RemoveSpooled(c.session, c.id)).sessions == s.sessions[c.session := session.(
        captureCount := session.captureCount + 1, lastCaptureAt := Some(c.capturedAt), lastError := None,
        spooled := Some(Spool(session)))]
  {
    var session := s.sessions[c.session];
    KeepAll(c.id, Spool(session));
    DropLast(Spool(session), c);
    hide Without;
    var t := Do(Do(s, AppendSpool(c.session, c)), StoreMetadata(c.session, c.id));
    assert t.sessions == s.sessions[c.session := session.(spooled := Some(Spool(session) + [c]))];
  }

  lemma ReplayTwo(s: Store, v: Write, w: Write)
    requires v.sid in s.sessions && w.sid == v.sid
    ensures Addressed(s, [v, w]) && w.sid in Do(s, v).sessions && Replay(s, [v, w]) == Do(Do(s, v), w)
  {
    NothingSafe(s);
    ReplayStep(s, [], v);
    ReplayStep(s, [v], w);
    assert [] + [v] == [v] && [v] + [w] == [v, w];
    assert Replay(s, [v]) == Do(s, v);
    hide Replay, Do;
  }

  lemma ReplayFour(s: Store, v: Write, w: Write, x: Write, y: Write)
    requires v.sid in s.sessions && w.sid == x.sid == y.sid == v.sid
    ensures Addressed(s, [v, w, x, y]) && Replay(s, [v, w, x, y]) == Do(Do(Do(Do(s, v), w), x), y)
  {
    hide Replay, Do, Addressed;
    ReplayTwo(s, v, w);
    ReplayTwo(Replay(s, [v, w]), x, y);
    AddressedTwo(s, x, y);
    ReplayConcat(s, [v, w], [x, y]);
    assert [v, w] + [x, y] == [v, w, x, y];
  }

  lemma AddressedTwo(s: Store, x: Write, y: Write)
    requires x.sid in s.sessions && y.sid == x.sid
    ensures Addressed(s, [x, y])
  {
  }

  lemma CopiedCapture(s: Store, c: Capture)
    requires c.session in s.sessions
    ensures Addressed(s, CaptureWrites(c, true, true))
    ensures
      var t := Do(Do(s, AppendSpool(c.session, c)), StoreMetadata(c.session, c.id));
      Replay(s, CaptureWrites(c, true, true))
        == Do(Do(t, CountCapture(c.session, c.id, c.capturedAt)), RemoveSpooled(c.session, c.id))
  {
    hide Replay, Do, Addressed;
    ReplayFour(s, AppendSpool(c.session, c), StoreMetadata(c.session, c.id),
               CountCapture(c.session, c.id, c.capturedAt), RemoveSpooled(c.session, c.id));
  }

  /** A capture with a new id adds one to the total if it reaches the spool, whether or not it is copied. */
  lemma CaptureTotal(s: Store, c: Capture, remoteOk: bool, copyOk: bool)
    requires c.session in s.sessions && c.id !in SpoolIds(s.sessions[c.session])
    ensures Addressed(s, CaptureWrites(c, remoteOk, copyOk))
    ensures
      var t := Replay(s, CaptureWrites(c, remoteOk, copyOk));
      && (forall sid | sid in s.sessions && sid != c.session :: t.sessions[sid] == s.sessions[sid])
      && Total(t.sessions[c.session]) == Total(s.sessions[c.session]) + (if remoteOk then 1 else 0)
      && SpoolIds(t.sessions[c.session]) == SpoolIds(s.sessions[c.session]) + if remoteOk && !copyOk then {c.id} else {}
  {
    CaptureEffect(s, c, remoteOk, copyOk);
    forall x | x in Spool(s.sessions[c.session]) ensures x.id != c.id {
      assert x.id in SpoolIds(s.sessions[c.session]);
    }
    hide SpoolIds, Without;
    if !remoteOk {
      NothingSafe(s);
      ReplayStep(s, [], RecordError(c.session, "capture_failed"));
      hide Replay;
      assert [] + [RecordError(c.session, "capture_failed")] == CaptureWrites(c, remoteOk, copyOk);
    } else if copyOk {
      CopiedCapture(s, c);
      CopiedSteps(s, c);
      hide Replay, Do;
    } else {
      FailedCapture(s, c);
      KeepAll(c.id, Spool(s.sessions[c.session]));
      hide Replay;
    }
  }

  /** Only the session `sid` changes. */
  ghost predicate OnlyAt(s: Store, t: Store, sid: SessionId) {
    t.sessions.Keys == s.sessions.Keys && forall other | other in s.sessions && other != sid :: t.sessions[other] == s.sessions[other]
  }

  lemma SyncedTotal(s: Store, c: Capture)
    requires c.session in s.sessions
    ensures Addressed(s, SyncedWrites(c))
    ensures
      var t := Replay(s, SyncedWrites(c));
      && OnlyAt(s, t, c.session) && t.sessions[c.session].spooled == s.sessions[c.session].spooled
      && t.sessions[c.session].captureCount == s.sessions[c.session].captureCount + 1
  {
    ReplayTwo(s, StoreMetadata(c.session, c.id), CountCapture(c.session, c.id, c.capturedAt));
    hide Replay;
  }

  lemma {:induction false} ItemsTotal(s: Store, sid: SessionId, spool: seq<Capture>, copy: Capture -> Copy)
    requires sid in s.sessions && AllOf(sid, spool)
    ensures Addressed(s, ItemWrites(spool, copy))
    ensures
      var t := Replay(s, ItemWrites(spool, copy));
      && OnlyAt(s, t, sid) && t.sessions[sid].spooled == s.sessions[sid].spooled
      && t.sessions[sid].captureCount == s.sessions[sid].captureCount + Copies(spool, copy)
  {
    if spool == [] {
      NothingSafe(s);
    } else {
      var n := |spool| - 1;
      var c := spool[n];
      assert spool == spool[..n] + [c] && c in spool;
      ItemsTotal(s, sid, spool[..n], copy);
      var before := ItemWrites(spool[..n], copy);
      if copy(c).Copied? {
        SyncedTotal(Replay(s, before), c);
        hide Replay, Addressed, ItemWrites, SyncedWrites, AllSafe;
        ReplayConcat(s, before, SyncedWrites(c));
      } else {
        assert before + [] == before;
      }
    }
  }

  lemma {:induction false} RemainingLength(spool: seq<Capture>, copy: Capture -> Copy)
    requires forall c | c in spool :: !copy(c).UnknownDevice?
    ensures |Remaining(spool, copy)| + Copies(spool, copy) == |spool|
  {
    if spool != [] {
      var n := |spool| - 1;
      assert spool == spool[..n] + [spool[n]];
      RemainingLength(spool[..n], copy);
      ItemStep(spool, copy, n);
      assert spool[..n + 1] == spool;
      hide Remaining;
    }
  }

  /** A synchronized session keeps its total, unless the batch stops in it: then every copy made in it counts twice. */
  lemma SessionTotal(s: Store, sid: SessionId, session: Session, copy: Capture -> Copy)
    requires sid in s.sessions && s.sessions[sid].spooled == session.spooled && AllOf(sid, Spool(session))
    ensures Addressed(s, SessionWrites(sid, session, copy).0)
    ensures
      var t := Replay(s, SessionWrites(sid, session, copy).0);
      && OnlyAt(s, t, sid) && Total(t.sessions[sid]) == Total(s.sessions[sid]) + Wasted(session, copy)
      && SpoolIds(t.sessions[sid]) <= SpoolIds(s.sessions[sid])
  {
    NothingSafe(s);
    if session.spooled.Some? {
      var spool := session.spooled.value;
      var n := KnownDevices(spool, copy);
      if n < |spool| {
        ItemsTotal(s, sid, spool[..n], copy);
        hide Replay, ItemWrites;
      } else {
        ItemsTotal(s, sid, spool, copy);
        forall c | c in spool ensures !copy(c).UnknownDevice? {
          var k :| 0 <= k < |spool| && spool[k] == c;
        }
        RemainingLength(spool, copy);
        ReplayStep(s, ItemWrites(spool, copy), ReplaceSpool(sid, Remaining(spool, copy)));
        hide Replay, ItemWrites;
      }
    }
  }

  lemma {:induction false} BatchTotal(s: Store, captured: set<Key>, sids: seq<SessionId>, copy: Capture -> Copy, i: nat,
                                      sid: SessionId)
    requires Inv(s, captured) && Distinct(sids) && i <= |sids| && forall x | x in sids :: x in s.sessions
    requires (forall x | x in sids[..i] :: x in s.sessions) && sid in s.sessions
    ensures Addressed(s, SyncWrites(s, sids[..i], copy).0)
    ensures
      var t := Replay(s, SyncWrites(s, sids[..i], copy).0);
      && Total(t.sessions[sid]) == Total(s.sessions[sid]) + BatchWaste(s, sids[..i], copy, sid)
      && SpoolIds(t.sessions[sid]) <= SpoolIds(s.sessions[sid])
  {
    hide Inv, Replay, AllSafe, SessionWrites, SyncWrites, Wasted, Distinct, Total;
    BatchSafe(s, captured, sids, copy, i);
    if i == 0 {
      assert sids[..i] == [];
      SyncNothing(s, copy);
      NothingSafe(s);
    } else {
      assert sids[..i][..i - 1] == sids[..i - 1] && sids[..i][i - 1] == sids[i - 1];
      BatchTotal(s, captured, sids, copy, i - 1, sid);
      BatchSafe(s, captured, sids, copy, i - 1);
      var before := SyncWrites(s, sids[..i - 1], copy);
      if before.1 {
        var t, last := Replay(s, before.0), sids[i - 1];
        BatchStep(s, sids, copy, i - 1);
        LoadedSound(s, captured, last);
        SessionTotal(t, last, s.sessions[last], copy);
        ReplayConcat(s, before.0, SessionWrites(last, s.sessions[last], copy).0);
      } else {
        StoppedBatch(s, sids[..i], copy, i - 1);
      }
    }
  }

  lemma NewCaptureTotal(s: Store, captured: set<Key>, c: Capture, remoteOk: bool, copyOk: bool, sid: SessionId)
    requires Known(s, captured) && c.session in s.sessions && (c.session, c.id) !in captured && sid in s.sessions
    ensures Addressed(s, CaptureWrites(c, remoteOk, copyOk))
    ensures
      var t := Replay(s, CaptureWrites(c, remoteOk, copyOk));
      var more := captured + if remoteOk then {(c.session, c.id)} else {};
      && Total(t.sessions[sid]) + |Of(captured, sid)| == Total(s.sessions[sid]) + |Of(more, sid)|
      && SpoolIds(t.sessions[sid]) <= Of(more, sid)
  {
    assert c.id !in Of(captured, c.session) && SpoolIds(s.sessions[c.session]) <= Of(captured, c.session);
    assert SpoolIds(s.sessions[sid]) <= Of(captured, sid);
    CaptureTotal(s, c, remoteOk, copyOk);
    CapturedOf(captured, c, remoteOk, sid);
    hide Known, Of, Replay, CaptureWrites, Total, SpoolIds, Addressed;
  }

  lemma WholeBatchTotal(s: Store, captured: set<Key>, sids: seq<SessionId>, copy: Capture -> Copy, sid: SessionId)
    requires Inv(s, captured) && Distinct(sids) && (forall x | x in sids :: x in s.sessions) && sid in s.sessions
    ensures Addressed(s, SyncWrites(s, sids, copy).0)
    ensures
      var t := Replay(s, SyncWrites(s, sids, copy).0);
      && Total(t.sessions[sid]) == Total(s.sessions[sid]) + BatchWaste(s, sids, copy, sid)
      && SpoolIds(t.sessions[sid]) <= SpoolIds(s.sessions[sid])
  {
    hide Inv, Replay, SyncWrites, BatchWaste, Distinct, Total, SpoolIds, Addressed;
    assert sids[..|sids|] == sids;
    BatchTotal(s, captured, sids, copy, |sids|, sid);
  }

  /** The writes leave a known spool, and the total of the session exceeds its captures by `waste` more than before. */
  ghost predicate Exceeds(s: Store, captured: set<Key>, ws: seq<Write>, sid: SessionId, waste: nat)
    requires sid in s.sessions
  {
    && Addressed(s, ws)
    && var t, more := Replay(s, ws), captured + Captured(ws);
       && Total(t.sessions[sid]) + |Of(captured, sid)| == Total(s.sessions[sid]) + |Of(more, sid)| + waste
       && SpoolIds(t.sessions[sid]) <= Of(more, sid)
  }

  lemma NothingExceeds(s: Store, captured: set<Key>, sid: SessionId)
    requires Known(s, captured) && sid in s.sessions
    ensures Exceeds(s, captured, [], sid, 0)
  {
    NothingSafe(s);
    assert Captured([]) == {} && captured + {} == captured;
    assert SpoolIds(s.sessions[sid]) <= Of(captured, sid);
  }

  lemma CaptureExceeds(s: Store, captured: set<Key>, c: Capture, remoteOk: bool, copyOk: bool, sid: SessionId)
    requires Known(s, captured) && c.session in s.sessions && (c.session, c.id) !in captured && sid in s.sessions
    ensures Exceeds(s, captured, CaptureWrites(c, remoteOk, copyOk), sid, 0)
  {
    hide Known, Of, Replay, CaptureWrites, Total, SpoolIds, Captured;
    NewCaptureTotal(s, captured, c, remoteOk, copyOk, sid);
    CaptureCaptured(c, remoteOk, copyOk);
  }

  lemma NothingNew(captured: set<Key>)
    ensures captured + {} == captured
  {
  }

  lemma SyncExceeds(s: Store, captured: set<Key>, sids: seq<SessionId>, copy: Capture -> Copy, sid: SessionId)
    requires Inv(s, captured) && Known(s, captured) && sid in s.sessions
    requires Distinct(sids) && forall x | x in sids :: x in s.sessions
    ensures Exceeds(s, captured, SyncWrites(s, sids, copy).0, sid, BatchWaste(s, sids, copy, sid))
  {
    assert SpoolIds(s.sessions[sid]) <= Of(captured, sid);
    hide Known, Inv, Of, Replay, SyncWrites, Total, SpoolIds, Captured, BatchWaste, Distinct, Addressed;
    WholeBatchTotal(s, captured, sids, copy, sid);
    BatchCapturesNothing(s, sids, copy);
    NothingNew(captured);
  }

  lemma PlanExceeds(s: Store, captured: set<Key>, x: SessionId, plan: seq<PlanItem>, sid: SessionId)
    requires Known(s, captured) && x in s.sessions && sid in s.sessions
    ensures Exceeds(s, captured, [WritePlan(x, plan)], sid, 0)
  {
    var w := WritePlan(x, plan);
    NothingSafe(s);
    ReplayStep(s, [], w);
    assert [] + [w] == [w] && captured + {} == captured;
    CapturedOne(w);
    assert SpoolIds(s.sessions[sid]) <= Of(captured, sid);
    hide Known, Of, Captured, Replay;
    assert SpoolIds(Do(s, w).sessions[sid]) == SpoolIds(s.sessions[sid]);
  }

  /** What one whole operation does to the total of one session. */
  lemma OpExceeds(s: Store, captured: set<Key>, step: Step, sid: SessionId)
    requires Inv(s, captured) && Known(s, captured) && Whole(s, captured, step) && sid in s.sessions
    ensures Cut(OpWrites(s, step.op), step.cut) == OpWrites(s, step.op)
    ensures Exceeds(s, captured, OpWrites(s, step.op), sid, OpWaste(s, step.op, sid))
  {
    hide Inv, Known, Exceeds, CaptureWrites, SyncWrites, BatchWaste;
    match step.op {
      case CaptureOp(c, remoteOk, copyOk) =>
        if c.session in s.sessions { CaptureExceeds(s, captured, c, remoteOk, copyOk, sid); }
        else { NothingExceeds(s, captured, sid); }
      case SyncOp(sids, copy) =>
        if forall x | x in sids :: x in s.sessions { SyncExceeds(s, captured, sids, copy, sid); }
        else { NothingExceeds(s, captured, sid); }
      case PlanOp(x, plan) =>
        if x in s.sessions { PlanExceeds(s, captured, x, plan, sid); } else { NothingExceeds(s, captured, sid); }
    }
  }

  ghost predicate WholeRun(s: Store, steps: seq<Step>)
    decreases |steps|
  {
    steps == [] || (
      var (t, log) := Run(s, steps[..|steps| - 1]);
      WholeRun(s, steps[..|steps| - 1]) && Whole(t, Captured(log), steps[|steps| - 1]))
  }

  /** Every synchronization of the run is clean where it starts. */
  ghost predicate CleanRun(s: Store, steps: seq<Step>)
    decreases |steps|
  {
    steps == [] || (
      CleanRun(s, steps[..|steps| - 1]) && CleanOp(Run(s, steps[..|steps| - 1]).0, steps[|steps| - 1].op))
  }

  ghost function RunWaste(s: Store, steps: seq<Step>, sid: SessionId): nat
    decreases |steps|
  {
    if steps == [] then 0
    else RunWaste(s, steps[..|steps| - 1], sid) + OpWaste(Run(s, steps[..|steps| - 1]).0, steps[|steps| - 1].op, sid)
  }

  lemma {:induction false} WholeWellFormed(s: Store, steps: seq<Step>)
    requires WholeRun(s, steps)
    ensures forall i | 0 <= i < |steps| :: WellFormed(steps[i].op)
    decreases |steps|
  {
    hide Run, OpWrites, WellFormed;
    if steps != [] {
      var n := |steps| - 1;
      WholeWellFormed(s, steps[..n]);
      assert steps == steps[..n] + [steps[n]];
    }
  }

  lemma {:induction false} RunTotal(s: Store, steps: seq<Step>, sid: SessionId)
    requires Inv(s, {}) && Known(s, {}) && WholeRun(s, steps) && sid in s.sessions
    ensures
      var (t, log) := Run(s, steps);
      && t.sessions.Keys == s.sessions.Keys && Known(t, Captured(log))
      && Total(t.sessions[sid]) == Total(s.sessions[sid]) + |Of(Captured(log), sid)| + RunWaste(s, steps, sid)
    decreases |steps|
  {
    hide Inv, Whole, Replay, OpWrites, OpWaste, Cut, Total, Of, SpoolIds, Addressed;
    RunSessions(s, steps);
    if steps == [] {
      assert Captured([]) == {};
      NoneOf(sid);
    } else {
      var n := |steps| - 1;
      WholeWellFormed(s, steps[..n]);
      RunKeeps(s, steps[..n]);
      RunTotal(s, steps[..n], sid);
      var (t, log) := Run(s, steps[..n]);
      var ws := OpWrites(t, steps[n].op);
      hide Captured;
      CapturedConcat(log, ws);
      OpExceeds(t, Captured(log), steps[n], sid);
      forall x | x in t.sessions ensures SpoolIds(Replay(t, ws).sessions[x]) <= Of(Captured(log + ws), x) {
        OpExceeds(t, Captured(log), steps[n], x);
      }
    }
  }

  lemma NoneOf(sid: SessionId)
    ensures Of({}, sid) == {}
  {
  }

  lemma CreatedKnown(created: set<SessionId>)
    ensures Inv(Created(created), {}) && Known(Created(created), {})
  {
    FreshSessions(created);
  }

  /** After every operation of a run that is never cut short, the total of a session exceeds its captures by exactly the
      copies wasted so far. */
  lemma SurplusExact(created: set<SessionId>, steps: seq<Step>, sid: SessionId)
    requires sid in created && WholeRun(Created(created), steps)
    ensures
      var (t, log) := Run(Created(created), steps);
      sid in t.sessions && Total(t.sessions[sid]) == |Of(Captured(log), sid)| + RunWaste(Created(created), steps, sid)
  {
    CreatedKnown(created);
    RunTotal(Created(created), steps, sid);
    hide Run, Inv, Known, WholeRun, RunWaste;
  }

  /** A surplus is never repaired: what an earlier part of a run has wasted remains. */
  lemma {:induction false} SurplusStays(s: Store, steps: seq<Step>, k: nat, sid: SessionId)
    requires k <= |steps|
    ensures RunWaste(s, steps[..k], sid) <= RunWaste(s, steps, sid)
    ensures WholeRun(s, steps) ==> WholeRun(s, steps[..k])
    decreases |steps|
  {
    hide Run, Whole, OpWaste;
    if k == |steps| {
      assert steps[..k] == steps;
    } else {
      SurplusStays(s, steps[..|steps| - 1], k, sid);
      assert steps[..|steps| - 1][..k] == steps[..k];
    }
  }

  lemma {:induction false} NoCopies(spool: seq<Capture>, copy: Capture -> Copy)
    requires forall k | 0 <= k < |spool| :: !copy(spool[k]).UnknownDevice?
    ensures Copies(spool, copy) == 0 <==> forall k | 0 <= k < |spool| :: copy(spool[k]).CopyFailed?
  {
    if spool != [] {
      var n := |spool| - 1;
      NoCopies(spool[..n], copy);
      assert forall k | 0 <= k < n :: spool[..n][k] == spool[k];
    }
  }

  lemma CleanWastesNothing(session: Session, copy: Capture -> Copy)
    ensures CleanSession(session, copy) <==> Wasted(session, copy) == 0
  {
    var n := KnownDevices(Spool(session), copy);
    NoCopies(Spool(session)[..n], copy);
  }

  lemma {:induction false} BatchClean(s: Store, sids: seq<SessionId>, copy: Capture -> Copy)
    requires forall x | x in sids :: x in s.sessions
    ensures Clean(s, sids, copy) <==> forall sid | sid in s.sessions :: BatchWaste(s, sids, copy, sid) == 0
  {
    hide CleanSession, Wasted, SyncWrites;
    if sids != [] {
      var n := |sids| - 1;
      assert sids == sids[..n] + [sids[n]] && sids[n] in sids;
      BatchClean(s, sids[..n], copy);
      CleanWastesNothing(s.sessions[sids[n]], copy);
      if Clean(s, sids, copy) {
        forall sid | sid in s.sessions ensures BatchWaste(s, sids, copy, sid) == 0 {
          assert BatchWaste(s, sids[..n], copy, sid) == 0;
        }
      }
      if forall sid | sid in s.sessions :: BatchWaste(s, sids, copy, sid) == 0 {
        forall sid | sid in s.sessions ensures BatchWaste(s, sids[..n], copy, sid) == 0 {
          assert BatchWaste(s, sids, copy, sid) == 0;
        }
        assert BatchWaste(s, sids, copy, sids[n]) == 0;
      }
    }
  }

  lemma OpClean(s: Store, op: Op)
    ensures CleanOp(s, op) <==> forall sid | sid in s.sessions :: OpWaste(s, op, sid) == 0
  {
    if op.SyncOp? && forall x | x in op.sids :: x in s.sessions {
      BatchClean(s, op.sids, op.copy);
      hide Clean, BatchWaste;
      assert forall sid :: OpWaste(s, op, sid) == BatchWaste(s, op.sids, op.copy, sid);
    }
  }

  lemma {:induction false} RunCleanWaste(s: Store, steps: seq<Step>)
    ensures CleanRun(s, steps) <==> forall sid | sid in s.sessions :: RunWaste(s, steps, sid) == 0
    decreases |steps|
  {
    hide Run, CleanOp, OpWaste;
    if steps != [] {
      var n := |steps| - 1;
      var t := Run(s, steps[..n]).0;
      RunSessions(s, steps[..n]);
      RunCleanWaste(s, steps[..n]);
      OpClean(t, steps[n].op);
      forall sid
        ensures RunWaste(s, steps, sid) == 0 <==> RunWaste(s, steps[..n], sid) == 0 && OpWaste(t, steps[n].op, sid) == 0
      {
      }
      hide RunWaste;
    }
  }

  /** In a run that is never cut short, the sums are right at the end, and then at every boundary, exactly when no
      synchronization of the run has stopped after a copy in the same session. */
  lemma SumsExactlyWhenClean(created: set<SessionId>, steps: seq<Step>)
    requires WholeRun(Created(created), steps)
    ensures
      var (t, log) := Run(Created(created), steps);
      Sums(t, Captured(log)) <==> CleanRun(Created(created), steps)
    ensures
      (forall k | 0 <= k <= |steps| ::
        var (t, log) := Run(Created(created), steps[..k]);
        Sums(t, Captured(log)))
      <==> CleanRun(Created(created), steps)
  {
    var s := Created(created);
    hide Run, Captured, Of, Total, RunWaste, CleanRun, WholeRun, Sums;
    SumsAtEnd(created, steps);
    assert steps[..|steps|] == steps;
    RunCleanWaste(s, steps);
    if CleanRun(s, steps) {
      forall k | 0 <= k <= |steps| ensures var (t, log) := Run(s, steps[..k]); Sums(t, Captured(log)) {
        forall sid | sid in s.sessions ensures RunWaste(s, steps[..k], sid) == 0 {
          SurplusStays(s, steps, k, sid);
          assert RunWaste(s, steps, sid) == 0;
        }
        SurplusStays(s, steps, k, "");
        RunCleanWaste(s, steps[..k]);
        SumsAtEnd(created, steps[..k]);
      }
    }
  }

  lemma SumsAtEnd(created: set<SessionId>, steps: seq<Step>)
    requires WholeRun(Created(created), steps)
    ensures
      var (t, log) := Run(Created(created), steps);
      Sums(t, Captured(log)) <==> CleanRun(Created(created), steps)
  {
    var s := Created(created);
    var (t, log) := Run(s, steps);
    hide Run, Captured, Of, RunWaste, CleanRun, WholeRun;
    RunSessions(s, steps);
    RunCleanWaste(s, steps);
    forall sid | sid in s.sessions
      ensures Total(t.sessions[sid]) == |Of(Captured(log), sid)| + RunWaste(s, steps, sid)
    {
      SurplusExact(created, steps, sid);
    }
  }
}
