/** Capture sessions: the write-ahead spool, its synchronization, and the capture plan. */
module BakeCam {
  import opened Prelude
  import opened CapturePlan

  /** Every capture in the list belongs to the session. */
  predicate AllOf(sid: SessionId, captures: seq<Capture>) { forall c | c in captures :: c.session == sid }

  type SessionId = string

  predicate OwnSpools(sessions: map<SessionId, Session>) {
    forall sid | sid in sessions :: AllOf(sid, Spool(sessions[sid]))
  }

  datatype Capture = Capture(id: CaptureId, session: SessionId, device: string, capturedAt: string, elapsed: Option<int>)

  datatype Session = Session(
    captureCount: nat, lastCaptureAt: Option<string>, lastError: Option<string>,
    spooled: Option<seq<Capture>>, plan: seq<PlanItem>)

  /** What `create_session` writes. */
  function NewSession(): Session { Session(0, None, None, None, []) }

  function Spool(s: Session): seq<Capture> { if s.spooled.Some? then s.spooled.value else [] }

  function Created(sids: set<SessionId>): Store { Store(map sid | sid in sids :: NewSession(), {}, {}) }

  /** Sessions and stored capture metadata; `counted` remembers which captures the counters have counted. */
  datatype Store = Store(
    sessions: map<SessionId, Session>,
    metadata: set<(SessionId, CaptureId)>,
    counted: set<(SessionId, CaptureId)>)

  /** One atomic file replacement; session writes reread the session they change. */
  datatype Write =
    | AppendSpool(sid: SessionId, capture: Capture)
    | StoreMetadata(sid: SessionId, id: CaptureId)
    | CountCapture(sid: SessionId, id: CaptureId, capturedAt: string)
    | RemoveSpooled(sid: SessionId, id: CaptureId)
    | ReplaceSpool(sid: SessionId, remaining: seq<Capture>)
    | RecordError(sid: SessionId, error: string)
    | WritePlan(sid: SessionId, plan: seq<PlanItem>)

  function Without(spool: seq<Capture>, id: CaptureId): seq<Capture> { Filter((c: Capture) => c.id != id, spool) }

  function Do(s: Store, w: Write): Store
    requires w.sid in s.sessions
  {
    var session := s.sessions[w.sid];
    match w
    case AppendSpool(sid, c) =>
      s.(sessions := s.sessions[sid := session.(spooled := Some(Without(Spool(session), c.id) + [c]))])
    case StoreMetadata(sid, id) => s.(metadata := s.metadata + {(sid, id)})
    case CountCapture(sid, id, at) =>
      s.(counted := s.counted + {(sid, id)},
         sessions := s.sessions[sid := session.(captureCount := session.captureCount + 1,
                                                lastCaptureAt := Some(at), lastError := None)])
    case RemoveSpooled(sid, id) =>
      s.(sessions := s.sessions[sid := session.(spooled := Some(Without(Spool(session), id)))])
    case ReplaceSpool(sid, remaining) => s.(sessions := s.sessions[sid := session.(spooled := Some(remaining))])
    case RecordError(sid, error) => s.(sessions := s.sessions[sid := session.(lastError := Some(error))])
    case WritePlan(sid, plan) => s.(sessions := s.sessions[sid := session.(plan := plan)])
  }

  predicate Addressed(s: Store, ws: seq<Write>) { forall w | w in ws :: w.sid in s.sessions }

  /** The store after a sequence of writes. */
  function Replay(s: Store, ws: seq<Write>): (t: Store)
    requires Addressed(s, ws)
    ensures t.sessions.Keys == s.sessions.Keys
  {
    if ws == [] then s else
    assert forall w | w in ws[..|ws| - 1] :: w in ws;
    Do(Replay(s, ws[..|ws| - 1]), ws[|ws| - 1])
  }

  /** The writes of one capture: into the spool first, out of it only when stored and counted. */
  function CaptureWrites(c: Capture, remoteOk: bool, copyOk: bool): seq<Write> {
    if !remoteOk then [RecordError(c.session, "capture_failed")]
    else if !copyOk then [AppendSpool(c.session, c), RecordError(c.session, "copy_failed")]
    else [AppendSpool(c.session, c), StoreMetadata(c.session, c.id), CountCapture(c.session, c.id, c.capturedAt),
          RemoveSpooled(c.session, c.id)]
  }

  /** How the copy of a spooled capture goes; an unknown device ends the whole synchronization. */
  datatype Copy = Copied | CopyFailed | UnknownDevice

  function SyncedWrites(c: Capture): seq<Write> {
    [StoreMetadata(c.session, c.id), CountCapture(c.session, c.id, c.capturedAt)]
  }

  function ItemWrites(spool: seq<Capture>, copy: Capture -> Copy): seq<Write> {
    if spool == [] then []
    else
      var last := |spool| - 1;
      ItemWrites(spool[..last], copy) + if copy(spool[last]).Copied? then SyncedWrites(spool[last]) else []
  }

  function Remaining(spool: seq<Capture>, copy: Capture -> Copy): seq<Capture> {
    Filter((c: Capture) => copy(c).CopyFailed?, spool)
  }

  function KnownDevices(spool: seq<Capture>, copy: Capture -> Copy): (n: nat)
    ensures n <= |spool| && (forall k | 0 <= k < n :: !copy(spool[k]).UnknownDevice?)
    ensures n < |spool| ==> copy(spool[n]).UnknownDevice?
  {
    if spool == [] || copy(spool[0]).UnknownDevice? then 0 else 1 + KnownDevices(spool[1..], copy)
  }

  /** The writes of one synchronized session, and whether the batch goes on to the next one. */
  function SessionWrites(sid: SessionId, session: Session, copy: Capture -> Copy): (seq<Write>, bool) {
    if session.spooled.None? then ([], true) else
    var spool := session.spooled.value;
    var n := KnownDevices(spool, copy);
    if n < |spool| then (ItemWrites(spool[..n], copy), false)
    else (ItemWrites(spool, copy) + [ReplaceSpool(sid, Remaining(spool, copy))], true)
  }

  /** The writes of a whole batch, computed from the sessions as they were loaded at its start. */
  function SyncWrites(s: Store, sids: seq<SessionId>, copy: Capture -> Copy): (seq<Write>, bool)
    requires forall sid | sid in sids :: sid in s.sessions
  {
    if sids == [] then ([], true) else
    assert sids == sids[..|sids| - 1] + [sids[|sids| - 1]];
    var last := sids[|sids| - 1];
    var (before, completed) := SyncWrites(s, sids[..|sids| - 1], copy);
    if !completed then (before, false) else
    var (writes, goesOn) := SessionWrites(last, s.sessions[last], copy);
    (before + writes, goesOn)
  }

  datatype Planned = Planned(plan: seq<PlanItem>) | NoSession | Refused(error: ScheduleError)

  datatype Ending = Finished | SessionNotFound | RemoteFailed | NotCopied | DeviceUnknown

  /** The session files and the stored metadata; `log` keeps every durable write in order. */
  class BakeStore {
    var sessions: map<SessionId, Session>
    var metadata: set<(SessionId, CaptureId)>
    ghost var counted: set<(SessionId, CaptureId)>
    ghost var log: seq<Write>
    ghost const initial: Store

    constructor (created: set<SessionId>)
      ensures Valid() && log == [] && initial == Created(created)
    {
      sessions := map sid | sid in created :: NewSession();
      metadata, counted, log := {}, {}, [];
      initial := Created(created);
    }

    ghost function Now(): Store
      reads this
    {
      Store(sessions, metadata, counted)
    }

    /** The files are what the recorded writes make of the initial files; spooled captures know their session. */
    ghost predicate Valid()
      reads this
    {
      && sessions.Keys == initial.sessions.Keys
      && Addressed(initial, log) && Now() == Replay(initial, log)
      && OwnSpools(sessions)
    }

    method AppendSpooledCapture(sid: SessionId, capture: Capture)
      requires Valid() && sid in sessions && capture.session == sid
      modifies this
      ensures Valid() && sessions.Keys == old(sessions.Keys) && log == old(log) + [AppendSpool(sid, capture)]
    {
      var session := sessions[sid];
      var spooled := Without(Spool(session), capture.id) + [capture];
      ReplayStep(initial, log, AppendSpool(sid, capture));
      sessions := sessions[sid := session.(spooled := Some(spooled))];
      log := log + [AppendSpool(sid, capture)];
    }

    method WriteMetadata(sid: SessionId, id: CaptureId)
      requires Valid() && sid in sessions
      modifies this
      ensures Valid() && sessions.Keys == old(sessions.Keys) && log == old(log) + [StoreMetadata(sid, id)]
    {
      ReplayStep(initial, log, StoreMetadata(sid, id));
      metadata := metadata + {(sid, id)};
      log := log + [StoreMetadata(sid, id)];
    }

    method MarkSessionCapture(sid: SessionId, ghost id: CaptureId, capturedAt: string)
      requires Valid() && sid in sessions
      modifies this
      ensures Valid() && sessions.Keys == old(sessions.Keys) && log == old(log) + [CountCapture(sid, id, capturedAt)]
    {
      ReplayStep(initial, log, CountCapture(sid, id, capturedAt));
      var session := sessions[sid];
      sessions := sessions[sid := session.(captureCount := session.captureCount + 1, lastCaptureAt := Some(capturedAt),
                                           lastError := None)];
      counted := counted + {(sid, id)};
      log := log + [CountCapture(sid, id, capturedAt)];
    }

    method RemoveSpooledCapture(sid: SessionId, id: CaptureId)
      requires Valid() && sid in sessions
      modifies this
      ensures Valid() && sessions.Keys == old(sessions.Keys) && log == old(log) + [RemoveSpooled(sid, id)]
    {
      ReplayStep(initial, log, RemoveSpooled(sid, id));
      var session := sessions[sid];
      sessions := sessions[sid := session.(spooled := Some(Without(Spool(session), id)))];
      log := log + [RemoveSpooled(sid, id)];
    }

    method WriteRemaining(sid: SessionId, remaining: seq<Capture>)
      requires Valid() && sid in sessions && AllOf(sid, remaining)
      modifies this
      ensures Valid() && sessions.Keys == old(sessions.Keys) && log == old(log) + [ReplaceSpool(sid, remaining)]
    {
      ReplayStep(initial, log, ReplaceSpool(sid, remaining));
      sessions := sessions[sid := sessions[sid].(spooled := Some(remaining))];
      log := log + [ReplaceSpool(sid, remaining)];
    }

    method MarkSessionError(sid: SessionId, error: string)
      requires Valid() && sid in sessions
      modifies this
      ensures Valid() && sessions.Keys == old(sessions.Keys) && log == old(log) + [RecordError(sid, error)]
    {
      ReplayStep(initial, log, RecordError(sid, error));
      sessions := sessions[sid := sessions[sid].(lastError := Some(error))];
      log := log + [RecordError(sid, error)];
    }

    /** `remoteOk` and `copyOk` say how the remote capture and its copy turn out. */
    method CaptureNow(c: Capture, remoteOk: bool, copyOk: bool) returns (ending: Ending)
      requires Valid()
      modifies this
      ensures Valid()
      ensures log == old(log) + if c.session in old(sessions) then CaptureWrites(c, remoteOk, copyOk) else []
      ensures ending ==
        if c.session !in old(sessions) then SessionNotFound
        else if !remoteOk then RemoteFailed else if !copyOk then NotCopied else Finished
    {
      hide Valid;
      if c.session !in sessions { return SessionNotFound; }
      if !remoteOk {
        MarkSessionError(c.session, "capture_failed");
        return RemoteFailed;
      }
      AppendSpooledCapture(c.session, c);
      if !copyOk {
        MarkSessionError(c.session, "copy_failed");
        return NotCopied;
      }
      WriteMetadata(c.session, c.id);
      MarkSessionCapture(c.session, c.id, c.capturedAt);
      RemoveSpooledCapture(c.session, c.id);
      return Finished;
    }

    method RecordSynced(c: Capture)
      requires Valid() && c.session in sessions
      modifies this
      ensures Valid() && sessions.Keys == old(sessions.Keys) && log == old(log) + SyncedWrites(c)
    {
      hide Valid;
      WriteMetadata(c.session, c.id);
      MarkSessionCapture(c.session, c.id, c.capturedAt);
    }

    /** Copy what the loaded session has spooled; what fails to copy is what remains in its spool. */
    method SyncSession(sid: SessionId, session: Session, copy: Capture -> Copy) returns (goesOn: bool)
      requires Valid() && sid in sessions && AllOf(sid, Spool(session))
      modifies this
      ensures Valid() && sessions.Keys == old(sessions.Keys)
      ensures log == old(log) + SessionWrites(sid, session, copy).0 && goesOn == SessionWrites(sid, session, copy).1
    {
      hide Valid;
      if session.spooled.None? { return true; }
      var spool := session.spooled.value;
      var remaining: seq<Capture> := [];
      var k := 0;
      assert spool[..k] == [];
      while k < |spool|
        invariant 0 <= k <= |spool| && Valid() && sessions.Keys == old(sessions.Keys)
        invariant forall j | 0 <= j < k :: !copy(spool[j]).UnknownDevice?
        invariant log == old(log) + ItemWrites(spool[..k], copy)
        invariant remaining == Remaining(spool[..k], copy)
      {
        ItemStep(spool, copy, k);
        hide ItemWrites, Remaining;
        assert spool[k] in spool;
        match copy(spool[k]) {
          case UnknownDevice =>
            FirstUnknown(spool, copy, k);
            return false;
          case Copied => RecordSynced(spool[k]);
          case CopyFailed => remaining := remaining + [spool[k]];
        }
        k := k + 1;
      }
      assert spool[..k] == spool;
      FirstUnknown(spool, copy, k);
      WriteRemaining(sid, remaining);
      return true;
    }

    /** Synchronize the given sessions as they were loaded at the start; an unknown device ends the batch. */
    method SyncSpooledCaptures(sids: seq<SessionId>, copy: Capture -> Copy) returns (ending: Ending)
      requires Valid()
      modifies this
      ensures Valid()
      ensures (exists sid :: sid in sids && sid !in old(sessions)) ==> ending == SessionNotFound && log == old(log)
      ensures (forall sid | sid in sids :: sid in old(sessions)) ==>
        && log == old(log) + SyncWrites(old(Now()), sids, copy).0
        && ending == if SyncWrites(old(Now()), sids, copy).1 then Finished else DeviceUnknown
    {
      if exists sid :: sid in sids && sid !in sessions { return SessionNotFound; }
      ending := SyncLoaded(sids, copy);
    }

    method SyncLoaded(sids: seq<SessionId>, copy: Capture -> Copy) returns (ending: Ending)
      requires Valid() && forall sid | sid in sids :: sid in sessions
      modifies this
      ensures Valid()
      ensures log == old(log) + SyncWrites(old(Now()), sids, copy).0
      ensures ending == if SyncWrites(old(Now()), sids, copy).1 then Finished else DeviceUnknown
    {
      hide Valid, SyncWrites, SessionWrites;
      var loaded := sessions;
      ghost var start := Now();
      ValidOwns();
      SyncNothing(start, copy);
      assert sids[..0] == [];
      var i := 0;
      while i < |sids|
        invariant 0 <= i <= |sids| && Valid() && sessions.Keys == loaded.Keys
        invariant SyncWrites(start, sids[..i], copy).1
        invariant log == old(log) + SyncWrites(start, sids[..i], copy).0
      {
        assert sids[i] in sids;
        BatchStep(start, sids, copy, i);
        var goesOn := SyncSession(sids[i], loaded[sids[i]], copy);
        if !goesOn {
          StoppedBatch(start, sids, copy, i + 1);
          return DeviceUnknown;
        }
        i := i + 1;
      }
      assert sids[..|sids|] == sids;
      return Finished;
    }

    method WriteSessionPlan(sid: SessionId, plan: seq<PlanItem>)
      requires Valid() && sid in sessions
      modifies this
      ensures Valid() && sessions.Keys == old(sessions.Keys) && log == old(log) + [WritePlan(sid, plan)]
    {
      ReplayStep(initial, log, WritePlan(sid, plan));
      sessions := sessions[sid := sessions[sid].(plan := plan)];
      log := log + [WritePlan(sid, plan)];
    }

    /** `captures` is the directory listing of the session's stored captures. */
    method ScheduleSession(sid: SessionId, every: string, until: string, at: string, captures: seq<Stored>)
      returns (planned: Planned)
      requires Valid()
      modifies this
      ensures Valid()
      ensures log == old(log) + if planned.Planned? then [WritePlan(sid, planned.plan)] else []
      ensures planned ==
        if sid !in old(sessions) then NoSession
        else
          match Offsets(every, until, at)
          case Err(error) => Refused(error)
          case Ok(offsets) => Planned(Plan(offsets, captures))
    {
      hide Valid, Offsets, Plan;
      if sid !in sessions { return NoSession; }
      var offsets := ScheduleOffsets(every, until, at);
      if offsets.Err? { return Refused(offsets.error); }
      var plan := BuildPlan(offsets.value, captures);
      WriteSessionPlan(sid, plan);
      return Planned(plan);
    }

    /** A session without a plan is left as it is. */
    method RefreshSessionPlan(sid: SessionId, captures: seq<Stored>) returns (planned: Planned)
      requires Valid()
      modifies this
      ensures Valid()
      ensures sid !in old(sessions) ==> planned == NoSession && log == old(log)
      ensures sid in old(sessions) ==>
        var plan := old(sessions)[sid].plan;
        && planned == Planned(Refresh(plan, captures))
        && log == old(log) + if plan == [] then [] else [WritePlan(sid, planned.plan)]
    {
      hide Valid;
      if sid !in sessions { return NoSession; }
      var refreshed := RefreshPlan(sessions[sid].plan, captures);
      if sessions[sid].plan != [] { WriteSessionPlan(sid, refreshed); }
      return Planned(refreshed);
    }

    lemma ValidOwns()
      requires Valid()
      ensures OwnSpools(sessions)
    {
    }
  }

  lemma SyncNothing(s: Store, copy: Capture -> Copy)
    ensures SyncWrites(s, [], copy) == ([], true)
  {
  }

  lemma BatchStep(s: Store, sids: seq<SessionId>, copy: Capture -> Copy, i: nat)
    requires i < |sids| && (forall sid | sid in sids :: sid in s.sessions) && SyncWrites(s, sids[..i], copy).1
    ensures sids[i] in s.sessions
    ensures
      var session := SessionWrites(sids[i], s.sessions[sids[i]], copy);
      SyncWrites(s, sids[..i + 1], copy) == (SyncWrites(s, sids[..i], copy).0 + session.0, session.1)
  {
    assert sids[i] in sids;
    assert sids[..i + 1][..i] == sids[..i];
  }

  lemma ItemStep(spool: seq<Capture>, copy: Capture -> Copy, k: nat)
    requires k < |spool|
    ensures ItemWrites(spool[..k + 1], copy)
      == ItemWrites(spool[..k], copy) + if copy(spool[k]).Copied? then SyncedWrites(spool[k]) else []
    ensures Remaining(spool[..k + 1], copy)
      == Remaining(spool[..k], copy) + if copy(spool[k]).CopyFailed? then [spool[k]] else []
  {
    assert spool[..k + 1] == spool[..k] + [spool[k]] && spool[..k + 1][..k] == spool[..k];
    FilterConcat((c: Capture) => copy(c).CopyFailed?, spool[..k], [spool[k]]);
  }

  lemma {:induction false} FirstUnknown(spool: seq<Capture>, copy: Capture -> Copy, k: nat)
    requires k <= |spool| && forall j | 0 <= j < k :: !copy(spool[j]).UnknownDevice?
    requires k < |spool| ==> copy(spool[k]).UnknownDevice?
    ensures KnownDevices(spool, copy) == k
  {
    if k > 0 { FirstUnknown(spool[1..], copy, k - 1); }
  }

  /** A batch that has stopped adds nothing for later sessions. */
  lemma {:induction false} StoppedBatch(s: Store, sids: seq<SessionId>, copy: Capture -> Copy, i: nat)
    requires i <= |sids| && forall sid | sid in sids :: sid in s.sessions
    requires !SyncWrites(s, sids[..i], copy).1
    ensures SyncWrites(s, sids, copy) == SyncWrites(s, sids[..i], copy)
    decreases |sids|
  {
    if i == |sids| {
      assert sids[..i] == sids;
    } else {
      assert sids[..|sids| - 1][..i] == sids[..i];
      StoppedBatch(s, sids[..|sids| - 1], copy, i);
    }
  }

  lemma ReplayStep(s: Store, ws: seq<Write>, w: Write)
    requires Addressed(s, ws) && w.sid in s.sessions
    ensures Addressed(s, ws + [w]) && Replay(s, ws + [w]) == Do(Replay(s, ws), w)
  {
    assert (ws + [w])[..|ws|] == ws;
  }
}
