/** Runs of captures, synchronizations and plan updates, each of which may be cut short between two writes. */
module SpoolRuns {
  import opened Prelude
  import opened BakeCam
  import opened CapturePlan
  import opened SpoolSafety

  datatype Op =
    | CaptureOp(capture: Capture, remoteOk: bool, copyOk: bool)
    | SyncOp(sids: seq<SessionId>, copy: Capture -> Copy)
    | PlanOp(sid: SessionId, plan: seq<PlanItem>)

  /** The process ends after `cut` writes of the operation; a large `cut` lets it complete. */
  datatype Step = Step(op: Op, cut: nat)

  ghost predicate WellFormed(op: Op) { op.SyncOp? ==> Distinct(op.sids) }

  /** The writes the operation would perform on this store; an unknown session is refused before any write. */
  function OpWrites(s: Store, op: Op): seq<Write> {
    match op
    case CaptureOp(c, remoteOk, copyOk) => if c.session in s.sessions then CaptureWrites(c, remoteOk, copyOk) else []
    case SyncOp(sids, copy) =>
      if forall sid | sid in sids :: sid in s.sessions then SyncWrites(s, sids, copy).0 else []
    case PlanOp(sid, plan) => if sid in s.sessions then [WritePlan(sid, plan)] else []
  }

  function Cut(ws: seq<Write>, n: nat): seq<Write> { if n < |ws| then ws[..n] else ws }

  /** Every session that is still to be synchronized has the spool it was loaded with. */
  ghost predicate Untouched(s: Store, t: Store, sids: seq<SessionId>, i: nat)
    requires i <= |sids|
  {
    && t.sessions.Keys == s.sessions.Keys
    && forall k | i <= k < |sids| :: sids[k] in s.sessions && t.sessions[sids[k]].spooled == s.sessions[sids[k]].spooled
  }

  lemma {:induction false} BatchSafe(s: Store, captured: set<Key>, sids: seq<SessionId>, copy: Capture -> Copy, i: nat)
    requires Inv(s, captured) && Distinct(sids) && i <= |sids| && forall sid | sid in sids :: sid in s.sessions
    ensures Addressed(s, SyncWrites(s, sids[..i], copy).0) && AllSafe(s, SyncWrites(s, sids[..i], copy).0)
    ensures SyncWrites(s, sids[..i], copy).1 ==> Untouched(s, Replay(s, SyncWrites(s, sids[..i], copy).0), sids, i)
  {
    hide AllSafe, Replay, SessionWrites, Inv, SyncWrites;
    if i == 0 {
      assert sids[..i] == [];
      SyncNothing(s, copy);
      NothingSafe(s);
    } else {
      BatchSafe(s, captured, sids, copy, i - 1);
      var before := SyncWrites(s, sids[..i - 1], copy);
      if before.1 {
        BatchStep(s, sids, copy, i - 1);
        var sid := sids[i - 1];
        var t := Replay(s, before.0);
        LoadedSound(s, captured, sid);
        SessionSafe(t, sid, s.sessions[sid], copy);
        ReplayConcat(s, before.0, SessionWrites(sid, s.sessions[sid], copy).0);
        var u := Replay(t, SessionWrites(sid, s.sessions[sid], copy).0);
        forall k | i <= k < |sids| ensures u.sessions[sids[k]].spooled == s.sessions[sids[k]].spooled {
          assert sids[k] != sid;
        }
      } else {
        StoppedBatch(s, sids[..i], copy, i - 1) by { assert sids[..i][..i - 1] == sids[..i - 1]; }
        assert sids[..i][..i - 1] == sids[..i - 1];
      }
    }
  }

  lemma LoadedSound(s: Store, captured: set<Key>, sid: SessionId)
    requires Inv(s, captured) && sid in s.sessions
    ensures AllOf(sid, Spool(s.sessions[sid])) && DistinctIds(Spool(s.sessions[sid]))
  {
    assert Accounted(s.sessions[sid], sid, Of(captured, sid), Of(s.counted, sid));
  }

  /** All writes of an operation are safe where they stand. */
  lemma OpSafe(s: Store, captured: set<Key>, op: Op)
    requires Inv(s, captured) && WellFormed(op)
    ensures Addressed(s, OpWrites(s, op)) && AllSafe(s, OpWrites(s, op))
  {
    hide AllSafe, Replay, Inv;
    NothingSafe(s);
    match op {
      case CaptureOp(c, remoteOk, copyOk) => if c.session in s.sessions { CaptureSafe(s, c, remoteOk, copyOk); }
      case SyncOp(sids, copy) =>
        if forall sid | sid in sids :: sid in s.sessions {
          BatchSafe(s, captured, sids, copy, |sids|);
          assert sids[..|sids|] == sids;
        }
      case PlanOp(sid, plan) =>
        if sid in s.sessions {
          SafeStep(s, [], WritePlan(sid, plan));
          assert [] + [WritePlan(sid, plan)] == [WritePlan(sid, plan)];
        }
    }
  }

  /** The store and all writes so far, after a run. */
  ghost function Run(s: Store, steps: seq<Step>): (r: (Store, seq<Write>))
    decreases |steps|
  {
    if steps == [] then (s, [])
    else
      var (t, log) := Run(s, steps[..|steps| - 1]);
      var step := steps[|steps| - 1];
      var ws := Cut(OpWrites(t, step.op), step.cut);
      if Addressed(t, ws) then (Replay(t, ws), log + ws) else (t, log)
  }

  lemma {:induction false} RunKeeps(s: Store, steps: seq<Step>)
    requires Inv(s, {}) && forall i | 0 <= i < |steps| :: WellFormed(steps[i].op)
    ensures Inv(Run(s, steps).0, Captured(Run(s, steps).1))
    decreases |steps|
  {
    hide Inv, AllSafe, Replay, OpWrites, WellFormed;
    if steps == [] {
      assert Captured([]) == {};
    } else {
      hide Captured;
      var last := steps[|steps| - 1];
      RunKeeps(s, steps[..|steps| - 1]);
      var (t, log) := Run(s, steps[..|steps| - 1]);
      var ws := OpWrites(t, last.op);
      OpSafe(t, Captured(log), last.op);
      var n := if last.cut < |ws| then last.cut else |ws|;
      assert ws[..n] == Cut(ws, last.cut);
      CutAnywhere(t, Captured(log), ws, n);
      CapturedConcat(log, ws[..n]);
    }
  }

  lemma {:induction false} SubsetCard(a: set<CaptureId>, b: set<CaptureId>)
    requires a <= b
    ensures |a| <= |b|
  {
    if x :| x in a {
      SubsetCard(a - {x}, b - {x});
    }
  }

  lemma {:induction false} IdsAtMost(spool: seq<Capture>)
    ensures |set c | c in spool :: c.id| <= |spool|
    ensures DistinctIds(spool) ==> |set c | c in spool :: c.id| == |spool|
  {
    if spool != [] {
      var head, tail := spool[0], set c | c in spool[1..] :: c.id;
      IdsAtMost(spool[1..]);
      assert (set c | c in spool :: c.id) == tail + {head.id} by {
        assert forall c | c in spool :: c == head || c in spool[1..];
        assert forall c | c == head || c in spool[1..] :: c in spool;
      }
      if DistinctIds(spool) {
        assert head.id !in tail;
      }
    }
  }

  lemma AccountedCount(session: Session, sid: SessionId, captured: set<CaptureId>, counted: set<CaptureId>)
    requires Accounted(session, sid, captured, counted)
    ensures session.captureCount + |Spool(session)| >= |captured|
  {
    SubsetCard(captured, SpoolIds(session) + counted);
    IdsAtMost(Spool(session));
    assert |SpoolIds(session) + counted| <= |SpoolIds(session)| + |counted|;
  }

  lemma FreshSessions(created: set<SessionId>)
    ensures Inv(Created(created), {})
  {
    var s := Created(created);
    forall sid | sid in s.sessions
      ensures Accounted(s.sessions[sid], sid, Of({}, sid), Of(s.counted, sid))
    {
      assert Of({}, sid) == {};
    }
  }

  /** What the invariant says about one session. */
  lemma InvAccounts(s: Store, captured: set<Key>, sid: SessionId)
    requires Inv(s, captured) && sid in s.sessions
    ensures forall id | id in Of(captured, sid) :: id in SpoolIds(s.sessions[sid]) || (sid, id) in s.metadata
    ensures s.sessions[sid].captureCount + |Spool(s.sessions[sid])| >= |Of(captured, sid)|
  {
    AccountedCount(s.sessions[sid], sid, Of(captured, sid), Of(s.counted, sid));
    forall id | id in Of(captured, sid) && id !in SpoolIds(s.sessions[sid]) ensures (sid, id) in s.metadata {
      assert id in Of(s.counted, sid);
    }
  }

  /** Wherever the steps of a run are cut short, every capture that reached a spool is still spooled or stored,
      and the counter together with the spool never falls below the number of captures. */
  lemma NothingLost(created: set<SessionId>, steps: seq<Step>, t: Store, log: seq<Write>, sid: SessionId)
    requires sid in created && forall i | 0 <= i < |steps| :: WellFormed(steps[i].op)
    requires Run(Created(created), steps) == (t, log)
    ensures sid in t.sessions
    ensures forall id | id in Of(Captured(log), sid) :: id in SpoolIds(t.sessions[sid]) || (sid, id) in t.metadata
    ensures t.sessions[sid].captureCount + |Spool(t.sessions[sid])| >= |Of(Captured(log), sid)|
  {
    hide Run, Inv, Captured, Of, WellFormed;
    FreshSessions(created);
    RunKeeps(Created(created), steps);
    RunSessions(Created(created), steps);
    InvAccounts(t, Captured(log), sid);
  }

  lemma {:induction false} RunSessions(s: Store, steps: seq<Step>)
    ensures Run(s, steps).0.sessions.Keys == s.sessions.Keys
    decreases |steps|
  {
    hide OpWrites, Replay;
    if steps != [] { RunSessions(s, steps[..|steps| - 1]); }
  }
}
