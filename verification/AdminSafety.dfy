/** What every run of the administration helper keeps, wherever its invocations are cut short. */
module AdminSafety {
  import opened Prelude
  import opened ReviewedOperations
  import Patterns
  import Journal = AuditJournal

  datatype Call = Call(operation: Operation, env: Env)

  /** The stores after a sequence of invocations. */
  function Run(h: Host, s: State, calls: seq<Call>): State
    decreases |calls|
  {
    if calls == [] then s else Run(h, Invoke(h, s, calls[0].operation, calls[0].env).0, calls[1..])
  }

  lemma {:induction false} RunConcat(h: Host, s: State, before: seq<Call>, after: seq<Call>)
    ensures Run(h, s, before + after) == Run(h, Run(h, s, before), after)
    decreases |before|
  {
    if before == [] {
      assert before + after == after;
    } else {
      assert (before + after)[1..] == before[1..] + after;
      RunConcat(h, Invoke(h, s, before[0].operation, before[0].env).0, before[1..], after);
    }
  }

  lemma RunSnoc(h: Host, s: State, calls: seq<Call>, call: Call)
    ensures Run(h, s, calls + [call]) == Invoke(h, Run(h, s, calls), call.operation, call.env).0
  {
    RunConcat(h, s, calls, [call]);
    assert [call][1..] == [];
  }

  /** How often the promote, cutover or rollback command of a request was started. */
  function Effects(commands: seq<Command>, id: Id): nat {
    if commands == [] then 0
    else (if commands[0].External? && commands[0].id == id then 1 else 0) + Effects(commands[1..], id)
  }

  lemma {:induction false} EffectsConcat(a: seq<Command>, b: seq<Command>, id: Id)
    ensures Effects(a + b, id) == Effects(a, id) + Effects(b, id)
  {
    if a == [] {
      assert a + b == b;
    } else {
      assert (a + b)[1..] == a[1..] + b;
      EffectsConcat(a[1..], b, id);
    }
  }

  ghost predicate Quiet(commands: seq<Command>) { forall c | c in commands :: !c.External? }

  lemma {:induction false} QuietHasNoEffects(commands: seq<Command>, id: Id)
    requires Quiet(commands)
    ensures Effects(commands, id) == 0
  {
    if commands != [] { QuietHasNoEffects(commands[1..], id); }
  }

  /** The latest time at which a request validated at `validated` can still be loaded. */
  function Deadline(validated: Time): Time { validated + 4 * HOUR + 5 * MINUTE }

  /** The expiry of a stored operation was accepted by the review that is on record for its request. */
  ghost predicate Timely(h: Host, material: map<Id, Material>, r: Reviewed) {
    && r.id in material
    && h.parseTimestamp(r.expiresAt).Instant?
    && material[r.id].validatedAt < h.parseTimestamp(r.expiresAt).value <= Deadline(material[r.id].validatedAt)
  }

  /** The stored operation passes every check of `_load_pending` but expiry. */
  ghost predicate Loadable(material: map<Id, Material>, op: Operation, r: Reviewed) {
    && IsReviewed(op) && r.operation == op && r.materialRoot == r.id
    && Patterns.Identifier(r.id) && Patterns.Commit(r.candidate) && IdentifiersUsable(r, op)
    && !r.digests.Empty() && r.digests.Hex()
    && r.id in material && material[r.id].files == r.digests
  }

  ghost predicate PendingSound(h: Host, pending: map<Operation, Reviewed>, consumed: set<Id>,
                               material: map<Id, Material>) {
    && (forall op | op in pending :: Loadable(material, op, pending[op]) && Timely(h, material, pending[op]))
    && (forall op | op in pending :: pending[op].id !in consumed)
    && (forall p, q | p in pending && q in pending && p != q :: pending[p].id != pending[q].id)
  }

  ghost predicate ConsumedSound(h: Host, results: set<Id>, consumed: map<Id, Consumed>,
                                material: map<Id, Material>) {
    && results <= consumed.Keys
    && (forall id | id in consumed :: consumed[id].reviewed.id == id && Timely(h, material, consumed[id].reviewed))
    && (forall id | id in consumed ::
          consumed[id].loadedAt < h.parseTimestamp(consumed[id].reviewed.expiresAt).value)
    && (forall id | id in consumed :: Loadable(material, consumed[id].reviewed.operation, consumed[id].reviewed))
  }

  ghost predicate EffectsSound(commands: seq<Command>, consumed: map<Id, Consumed>, results: map<Id, ResultFile>) {
    && (forall id :: Effects(commands, id) <= 1)
    && (forall id | Effects(commands, id) > 0 :: id in consumed)
    && (forall id, op | External(id, op) in commands :: id in consumed && consumed[id].reviewed.operation == op)
    && (forall id | id in results ::
          Effects(commands, id) == 1 && id in consumed && results[id].operation == consumed[id].reviewed.operation)
  }

  ghost predicate Inv(h: Host, s: State) {
    && PendingSound(h, s.pending, s.consumed.Keys, s.material)
    && ConsumedSound(h, s.results.Keys, s.consumed, s.material)
    && EffectsSound(s.commands, s.consumed, s.results)
  }

  /** Commands without an external effect never disturb the invariant. */
  lemma QuietKeeps(h: Host, s: State, more: seq<Command>)
    requires Inv(h, s) && Quiet(more)
    ensures Inv(h, WithCommands(s, more))
  {
    forall id ensures Effects(s.commands + more, id) == Effects(s.commands, id) {
      EffectsConcat(s.commands, more, id);
      QuietHasNoEffects(more, id);
    }
  }

  /** What a review knows about a request it has admitted. */
  ghost predicate Admitted(h: Host, s: State, e: Env, v: Valid) {
    && IsReviewed(v.operation) && Patterns.Identifier(v.id) && Patterns.Commit(v.candidate)
    && (v.operation.Rollback? ==> v.operationId.Some? && Patterns.Identifier(v.operationId.value))
    && (!v.operation.CutoverReviewed? ==> Patterns.Sha256(v.manifestSha))
    && (v.operation.DeployReviewed? ==> Patterns.Sha256(v.bundleSha))
    && h.parseTimestamp(v.expiresAt).Instant?
    && e.validatedAt < h.parseTimestamp(v.expiresAt).value <= Deadline(e.validatedAt)
    && v.operation !in s.pending && v.id !in s.consumed && v.id !in s.results && v.id !in s.material
  }

  /** What validation alone establishes. */
  lemma ValidatedFacts(h: Host, request: Request, now: Time)
    ensures ValidateRequest(h, request, now).Returned? ==>
      var v := ValidateRequest(h, request, now).value;
      && IsReviewed(v.operation) && Patterns.Identifier(v.id) && Patterns.Commit(v.candidate)
      && (v.operation.Rollback? ==> v.operationId.Some? && Patterns.Identifier(v.operationId.value))
      && (!v.operation.CutoverReviewed? ==> Patterns.Sha256(v.manifestSha))
      && (v.operation.DeployReviewed? ==> Patterns.Sha256(v.bundleSha))
      && h.parseTimestamp(v.expiresAt).Instant?
      && now < h.parseTimestamp(v.expiresAt).value <= Deadline(now)
  {
    hide Patterns.Identifier, Patterns.Commit, Patterns.Sha256, Patterns.Reason, Patterns.ApprovalReference,
         Patterns.Filename, ExpectedKeys;
  }

  lemma AdmitFacts(h: Host, s: State, e: Env)
    requires Admit(h, s, e).Returned?
    ensures Admitted(h, s, e, Admit(h, s, e).value)
  {
    hide ValidateRequest, Patterns.Identifier, Patterns.Commit, Patterns.Sha256;
    assert ValidateRequest(h, e.request.value, e.validatedAt).Returned?;
    ValidatedFacts(h, e.request.value, e.validatedAt);
  }

  lemma CopiedDigests(e: Env, v: Valid)
    requires IsReviewed(v.operation)
    requires !v.operation.CutoverReviewed? ==> Patterns.Sha256(v.manifestSha)
    requires v.operation.DeployReviewed? ==> Patterns.Sha256(v.bundleSha)
    ensures CopyMaterial(e, v).files.Hex()
    ensures CopyMaterial(e, v).outcome.Returned? ==> !CopyMaterial(e, v).files.Empty()
  {
  }

  lemma PrepareQuiet(e: Env, candidate: string)
    ensures Quiet(PrepareRepository(e, candidate).commands)
  {
    hide Env.Gate;
  }

  lemma AuthorizeQuiet(e: Env, v: Valid)
    ensures Quiet(Authorize(e, v).commands)
    ensures Authorize(e, v).outcome.Returned? && !v.operation.CutoverReviewed? ==>
      Authorize(e, v).outcome.value.Some? && Patterns.Identifier(Authorize(e, v).outcome.value.value)
  {
    PrepareQuiet(e, v.candidate);
    hide PrepareRepository, Env.Gate, Patterns.Identifier;
  }

  /** The states an admitted review can leave behind, wherever it stops. */
  ghost predicate ReviewReaches(s: State, e: Env, v: Valid, t: State) {
    var copied, authorized := CopyMaterial(e, v), Authorize(e, v);
    var ran := WithCommands(Filled(s, e, v, copied.files), authorized.commands);
    || t == s || t == Filled(s, e, v, NO_FILES) || t == Filled(s, e, v, copied.files) || t == ran
    || (copied.outcome.Returned? && authorized.outcome.Returned?
        && t == WithPending(ran, ReviewedFrom(e, v, copied.files, authorized.outcome.value)))
  }

  lemma ReviewStops(s: State, e: Env, v: Valid)
    ensures ReviewReaches(s, e, v, ReviewAdmitted(s, e, v).0)
  {
    hide CopyMaterial, Authorize, Filled, WithCommands, WithPending, ReviewedFrom;
  }

  /** A request whose identifier never had material can get material without disturbing anything. */
  lemma FilledKeeps(h: Host, s: State, e: Env, v: Valid, files: Files)
    requires Inv(h, s) && v.id !in s.material
    ensures Inv(h, Filled(s, e, v, files))
  {
    hide Patterns.Identifier, Patterns.Commit, IdentifiersUsable, Files.Hex, Files.Empty, Effects, EffectsSound;
  }

  lemma PendingKeeps(h: Host, s: State, r: Reviewed)
    requires Inv(h, s) && r.operation !in s.pending
    requires Loadable(s.material, r.operation, r) && Timely(h, s.material, r)
    requires r.id !in s.consumed && forall p | p in s.pending :: s.pending[p].id != r.id
    ensures Inv(h, WithPending(s, r))
  {
  }

  /** Copied material and commands without effect disturb nothing. */
  lemma FilledRanKeeps(h: Host, s: State, e: Env, v: Valid, files: Files, commands: seq<Command>)
    requires Inv(h, s) && v.id !in s.material && Quiet(commands)
    ensures Inv(h, Filled(s, e, v, files)) && Inv(h, WithCommands(Filled(s, e, v, files), commands))
  {
    FilledKeeps(h, s, e, v, files);
    hide Inv, Filled, WithCommands;
    QuietKeeps(h, Filled(s, e, v, files), commands);
  }

  lemma NewPendingKeeps(h: Host, s: State, e: Env, v: Valid, files: Files, commands: seq<Command>,
                        authorization: Option<string>)
    requires Inv(h, s) && Admitted(h, s, e, v) && Quiet(commands) && files.Hex() && !files.Empty()
    requires !v.operation.CutoverReviewed? ==> authorization.Some? && Patterns.Identifier(authorization.value)
    ensures Inv(h, WithPending(WithCommands(Filled(s, e, v, files), commands),
                               ReviewedFrom(e, v, files, authorization)))
  {
    FilledRanKeeps(h, s, e, v, files, commands);
    var ran, r := WithCommands(Filled(s, e, v, files), commands), ReviewedFrom(e, v, files, authorization);
    forall p | p in s.pending ensures s.pending[p].id != r.id {
      assert Loadable(s.material, p, s.pending[p]);
    }
    hide Inv, Patterns.Identifier, Patterns.Commit, Patterns.Sha256, Files.Hex, Files.Empty;
    PendingKeeps(h, ran, r);
  }

  lemma ReviewReachesKeeps(h: Host, s: State, e: Env, v: Valid, t: State)
    requires Inv(h, s) && Admitted(h, s, e, v) && ReviewReaches(s, e, v, t)
    ensures Inv(h, t)
  {
    hide CopyMaterial, Authorize, Inv, Filled, WithCommands, WithPending, ReviewedFrom, Quiet, Files.Hex, Files.Empty;
    var copied, authorized := CopyMaterial(e, v), Authorize(e, v);
    AuthorizeQuiet(e, v);
    FilledRanKeeps(h, s, e, v, NO_FILES, authorized.commands);
    FilledRanKeeps(h, s, e, v, copied.files, authorized.commands);
    CopiedDigests(e, v);
    if copied.outcome.Returned? && authorized.outcome.Returned? {
      NewPendingKeeps(h, s, e, v, copied.files, authorized.commands, authorized.outcome.value);
    }
    hide Admitted;
  }

  lemma ReviewKeeps(h: Host, s: State, e: Env)
    requires Inv(h, s)
    ensures Inv(h, ReviewStep(h, s, e).0)
  {
    hide Admit, ReviewAdmitted, ReviewReaches, Admitted, Inv;
    var admitted := Admit(h, s, e);
    if admitted.Returned? {
      AdmitFacts(h, s, e);
      ReviewStops(s, e, admitted.value);
      ReviewReachesKeeps(h, s, e, admitted.value, ReviewAdmitted(s, e, admitted.value).0);
    }
  }

  lemma PrepareFacts(h: Host, s: State, op: Operation, e: Env)
    ensures Quiet(Prepare(h, s, op, e).commands)
    ensures Prepare(h, s, op, e).outcome.Returned? ==>
      && op in s.pending && Prepare(h, s, op, e).outcome.value == s.pending[op]
      && s.pending[op].id !in s.consumed
      && h.parseTimestamp(s.pending[op].expiresAt).Instant?
      && e.loadedAt < h.parseTimestamp(s.pending[op].expiresAt).value
  {
  }

  /** The states an execution can leave behind once its checks have passed. */
  ghost predicate ExecuteReaches(s: State, op: Operation, e: Env, r: Reviewed, t: State) {
    var ran := WithCommands(Moved(s, op, e, r), [External(r.id, op)]);
    t == s || t == Moved(s, op, e, r) || t == ran || t == Recorded(ran, op, e, r)
  }

  lemma ExecuteStops(s: State, op: Operation, e: Env, r: Reviewed)
    ensures ExecuteReaches(s, op, e, r, ExecutePrepared(s, op, e, r).0)
  {
    hide Moved, WithCommands, Recorded, IdentifiersUsable;
  }

  lemma MovedPending(h: Host, pending: map<Operation, Reviewed>, consumed: set<Id>, material: map<Id, Material>,
                     op: Operation)
    requires PendingSound(h, pending, consumed, material) && op in pending
    ensures PendingSound(h, pending - {op}, consumed + {pending[op].id}, material)
  {
    hide Loadable, Timely;
  }

  lemma MovedConsumed(h: Host, results: set<Id>, consumed: map<Id, Consumed>, material: map<Id, Material>, c: Consumed)
    requires ConsumedSound(h, results, consumed, material)
    requires Loadable(material, c.reviewed.operation, c.reviewed) && Timely(h, material, c.reviewed)
    requires c.loadedAt < h.parseTimestamp(c.reviewed.expiresAt).value
    ensures ConsumedSound(h, results, consumed[c.reviewed.id := c], material)
  {
    hide Loadable;
  }

  lemma MovedEffects(commands: seq<Command>, consumed: map<Id, Consumed>, results: map<Id, ResultFile>, c: Consumed)
    requires EffectsSound(commands, consumed, results) && c.reviewed.id !in consumed
    ensures EffectsSound(commands, consumed[c.reviewed.id := c], results)
  {
    hide Effects;
  }

  lemma MovedKeeps(h: Host, s: State, op: Operation, e: Env)
    requires Inv(h, s) && op in s.pending
    requires e.loadedAt < h.parseTimestamp(s.pending[op].expiresAt).value
    ensures Inv(h, Moved(s, op, e, s.pending[op]))
  {
    var r := s.pending[op];
    assert Loadable(s.material, op, r) && Timely(h, s.material, r) && r.operation == op;
    MovedPending(h, s.pending, s.consumed.Keys, s.material, op);
    MovedConsumed(h, s.results.Keys, s.consumed, s.material, Consumed(r, e.loadedAt));
    MovedEffects(s.commands, s.consumed, s.results, Consumed(r, e.loadedAt));
    hide PendingSound, ConsumedSound, EffectsSound, Loadable, Timely;
    assert s.consumed[r.id := Consumed(r, e.loadedAt)].Keys == s.consumed.Keys + {r.id};
  }

  lemma EffectKeeps(h: Host, s: State, id: Id, op: Operation)
    requires Inv(h, s) && id in s.consumed && s.consumed[id].reviewed.operation == op && Effects(s.commands, id) == 0
    ensures Inv(h, WithCommands(s, [External(id, op)]))
    ensures Effects(s.commands + [External(id, op)], id) == 1
  {
    hide PendingSound, ConsumedSound;
    forall other ensures
      Effects(s.commands + [External(id, op)], other) == Effects(s.commands, other) + if other == id then 1 else 0
    {
      EffectsConcat(s.commands, [External(id, op)], other);
    }
  }

  lemma RecordedKeeps(h: Host, s: State, op: Operation, e: Env, r: Reviewed)
    requires Inv(h, s) && r.id in s.consumed && Effects(s.commands, r.id) == 1
    requires s.consumed[r.id].reviewed.operation == op
    ensures Inv(h, Recorded(s, op, e, r))
  {
  }

  lemma ExecuteReachesKeeps(h: Host, s: State, op: Operation, e: Env, t: State)
    requires Inv(h, s) && op in s.pending && ExecuteReaches(s, op, e, s.pending[op], t)
    requires e.loadedAt < h.parseTimestamp(s.pending[op].expiresAt).value
    ensures Inv(h, t)
  {
    var r := s.pending[op];
    assert Loadable(s.material, op, r) && Effects(s.commands, r.id) == 0;
    MovedKeeps(h, s, op, e);
    EffectKeeps(h, Moved(s, op, e, r), r.id, op);
    RecordedKeeps(h, WithCommands(Moved(s, op, e, r), [External(r.id, op)]), op, e, r);
  }

  lemma ExecuteKeeps(h: Host, s: State, op: Operation, e: Env)
    requires Inv(h, s)
    ensures Inv(h, ExecuteStep(h, s, op, e).0)
  {
    hide Prepare, ExecutePrepared, ExecuteReaches, Inv;
    var prepared := Prepare(h, s, op, e);
    PrepareFacts(h, s, op, e);
    QuietKeeps(h, s, prepared.commands);
    if prepared.outcome.Returned? {
      var checked := WithCommands(s, prepared.commands);
      ExecuteStops(checked, op, e, s.pending[op]);
      ExecuteReachesKeeps(h, checked, op, e, ExecutePrepared(checked, op, e, s.pending[op]).0);
    }
  }

  lemma PolicyKeeps(h: Host, s: State, t: State)
    requires Inv(h, s) && t == s.(sudoers := t.sudoers, revokedMarker := t.revokedMarker, journal := t.journal)
    ensures Inv(h, t)
  {
  }

  lemma OperateKeeps(h: Host, s: State, op: Operation, e: Env)
    requires Inv(h, s)
    ensures Inv(h, Operate(h, s, op, e).0)
  {
    hide ReviewStep, ExecuteStep, StatusStep, VerifyStep, RevokeStep, AuditRecords, Inv;
    match op {
      case Status => StatusKeeps(h, s, e);
      case Verify => VerifyKeeps(h, s, e);
      case Review => ReviewKeeps(h, s, e);
      case AuditVerify =>
      case Revoke => RevokeKeeps(h, s, e);
      case _ => ExecuteKeeps(h, s, op, e);
    }
  }

  lemma StatusKeeps(h: Host, s: State, e: Env)
    requires Inv(h, s)
    ensures Inv(h, StatusStep(h, s, e).0)
  {
    QuietKeeps(h, s, PROBES);
    hide Inv, JournalReadable, WithCommands;
  }

  lemma VerifyKeeps(h: Host, s: State, e: Env)
    requires Inv(h, s)
    ensures Inv(h, VerifyStep(s, e).0)
  {
    BoundaryQuiet(e);
    QuietKeeps(h, s, VerifyBoundary(e).commands);
    hide Inv, VerifyBoundary, WithCommands;
  }

  lemma RevokeTouchesPolicy(s: State, e: Env)
    ensures var t := RevokeStep(s, e).0; t == s.(sudoers := t.sudoers, revokedMarker := t.revokedMarker)
  {
  }

  lemma RevokeKeeps(h: Host, s: State, e: Env)
    requires Inv(h, s)
    ensures Inv(h, RevokeStep(s, e).0)
  {
    hide RevokeStep, Inv;
    RevokeTouchesPolicy(s, e);
    PolicyKeeps(h, s, RevokeStep(s, e).0);
  }

  lemma BoundaryQuiet(e: Env)
    ensures Quiet(VerifyBoundary(e).commands)
  {
  }

  lemma RecordingContinues(h: Host, journal: Journal.File, op: Operation, e: Env, context: Option<Reviewed>,
                           outcome: Outcome<Payload>)
    requires !outcome.Crashed?
    ensures
      var (next, final) := Recording(h, journal, op, e, context, outcome);
      Journal.Continues(journal, next) && (final.Returned? ==> final.value == PayloadOf(op, outcome))
  {
    assert Journal.Continues(journal, journal);
    hide Journal.Accepted, Journal.NextRecord, Journal.Written, Journal.Continues, Host.Encode, ReportOf, PayloadOf;
    var record := Journal.NextRecord(h.sha, journal.lines, h.Encode(ReportOf(op, e, context, outcome)));
    Journal.WrittenContinues(journal, record, e.journalWrite.Reached());
  }

  lemma InvokeKeeps(h: Host, s: State, op: Operation, e: Env)
    requires Inv(h, s)
    ensures Inv(h, Invoke(h, s, op, e).0)
  {
    hide Operate, Recording, Context, VerifyInstalled, Inv;
    OperateKeeps(h, s, op, e);
    var context := Context(h, s, op, e);
    var (after, outcome) := Dispatch(h, s, op, e);
    if context.Returned? && !outcome.Crashed? {
      PolicyKeeps(h, after, Conclude(h, after, op, e, context.value, outcome).0);
    }
  }

  /** The invariant holds after every run, in whatever way its invocations end. */
  lemma {:induction false} RunKeeps(h: Host, s: State, calls: seq<Call>)
    requires Inv(h, s)
    ensures Inv(h, Run(h, s, calls))
    decreases |calls|
  {
    if calls != [] {
      InvokeKeeps(h, s, calls[0].operation, calls[0].env);
      RunKeeps(h, Invoke(h, s, calls[0].operation, calls[0].env).0, calls[1..]);
    }
  }

  lemma InstalledInv(h: Host)
    ensures Inv(h, Installed())
  {
  }

  /** No run starts the external command of a request twice, or while the request is still pending. */
  lemma EffectAtMostOnce(h: Host, calls: seq<Call>, id: Id)
    ensures
      var s := Run(h, Installed(), calls);
      && Effects(s.commands, id) <= 1
      && (Effects(s.commands, id) == 1 ==> id in s.consumed && External(id, s.consumed[id].reviewed.operation) in s.commands)
      && (id in s.results ==> Effects(s.commands, id) == 1)
      && (forall op | op in s.pending && s.pending[op].id == id :: Effects(s.commands, id) == 0)
      && (forall op | op in s.pending && s.pending[op].id == id :: id !in s.consumed && id in s.material)
  {
    InstalledInv(h);
    RunKeeps(h, Installed(), calls);
    var s := Run(h, Installed(), calls);
    if Effects(s.commands, id) == 1 { EffectWitness(s.commands, id); }
  }

  /** After any run the pending requests are pairwise different and unconsumed, and everything ever consumed or recorded
      has its reviewed material. */
  lemma StoresNested(h: Host, calls: seq<Call>)
    ensures
      var s := Run(h, Installed(), calls);
      && (forall p, q | p in s.pending && q in s.pending && p != q :: s.pending[p].id != s.pending[q].id)
      && (forall op | op in s.pending :: s.pending[op].id !in s.consumed && s.pending[op].id !in s.results)
      && s.results.Keys <= s.consumed.Keys <= s.material.Keys
      && (forall op | op in s.pending :: IsReviewed(op) && s.pending[op].operation == op
                                         && s.pending[op].id in s.material
                                         && s.material[s.pending[op].id].files == s.pending[op].digests)
  {
    InstalledInv(h);
    RunKeeps(h, Installed(), calls);
    var s := Run(h, Installed(), calls);
    forall id | id in s.consumed ensures id in s.material {
      assert Timely(h, s.material, s.consumed[id].reviewed);
    }
    forall op | op in s.pending
      ensures IsReviewed(op) && s.pending[op].operation == op && s.pending[op].id in s.material
      ensures s.material[s.pending[op].id].files == s.pending[op].digests
    {
      assert Loadable(s.material, op, s.pending[op]);
    }
  }

  lemma {:induction false} EffectWitness(commands: seq<Command>, id: Id)
    requires Effects(commands, id) > 0
    ensures exists op :: External(id, op) in commands
  {
    if commands[0].External? && commands[0].id == id {
      assert commands[0] == External(id, commands[0].operation);
    } else {
      EffectWitness(commands[1..], id);
    }
  }

  lemma ConsumedDenialMeansConsumed(h: Host, s: State, op: Operation, e: Env)
    ensures Prepare(h, s, op, e).outcome == Raised(AlreadyConsumed) ==> op in s.pending && s.pending[op].id in s.consumed
  {
  }

  /** In a sound state, the `already consumed` error of `_consume` cannot be reached. */
  lemma AlreadyConsumedUnreachable(h: Host, s: State, op: Operation, e: Env)
    requires Inv(h, s)
    ensures Prepare(h, s, op, e).outcome != Raised(AlreadyConsumed)
  {
    ConsumedDenialMeansConsumed(h, s, op, e);
  }

  /** What a review stored is loadable until it expires: every other check of `_load_pending` passes. */
  lemma StoredReviewLoads(h: Host, s: State, op: Operation, e: Env, file: Point, now: Time, verifyArtifacts: bool)
    requires Inv(h, s) && e.fault(file).Pass? && e.fault(ArtifactsIntact).Pass?
    ensures
      LoadPending(h, s, op, e, file, now, verifyArtifacts) ==
      if op !in s.pending then Raised(file)
      else if h.parseTimestamp(s.pending[op].expiresAt).value <= now then Raised(PendingExpiry)
      else Returned(s.pending[op])
  {
    if op in s.pending {
      assert Loadable(s.material, op, s.pending[op]) && Timely(h, s.material, s.pending[op]);
    }
  }

  /** A request that was executed was loaded less than 4 h 05 min after its review was validated. */
  lemma ExecutedInTime(h: Host, calls: seq<Call>, id: Id)
    ensures
      var s := Run(h, Installed(), calls);
      Effects(s.commands, id) > 0 ==>
        id in s.consumed && id in s.material && s.consumed[id].loadedAt - s.material[id].validatedAt < 245 * MINUTE
  {
    InstalledInv(h);
    RunKeeps(h, Installed(), calls);
    var s := Run(h, Installed(), calls);
    if Effects(s.commands, id) > 0 {
      assert id in s.consumed && Timely(h, s.material, s.consumed[id].reviewed);
    }
  }

  /** The lower bound of the creation window never decides: expiry already rules out older requests. */
  lemma CreationCheckImplied(created: Time, expires: Time, now: Time)
    requires Unexpired(created, expires, now) && created <= now + 5 * MINUTE
    ensures InWindow(created, now) && now - 4 * HOUR < created
  {
  }

  predicate ConsumedKept(s: map<Id, Consumed>, t: map<Id, Consumed>) { forall id | id in s :: id in t && t[id] == s[id] }
  predicate ResultsKept(s: map<Id, ResultFile>, t: map<Id, ResultFile>) { forall id | id in s :: id in t && t[id] == s[id] }

  /** Every pending slot but `op` is as before. */
  predicate SlotsKept(s: map<Operation, Reviewed>, t: map<Operation, Reviewed>, op: Operation) {
    forall p | p in s && p != op :: p in t && t[p] == s[p]
  }

  /** Later states keep the evidence of earlier ones: nothing consumed, recorded or run is ever taken back. */
  ghost predicate Extends(s: State, t: State) {
    && s.material.Keys <= t.material.Keys
    && ConsumedKept(s.consumed, t.consumed) && ResultsKept(s.results, t.results)
    && s.commands <= t.commands && Journal.Continues(s.journal, t.journal)
  }

  /** One operation takes nothing back, changes no pending slot but `op`, and leaves the journal alone. */
  ghost predicate Advances(s: State, t: State, op: Operation) {
    Extends(s, t) && SlotsKept(s.pending, t.pending, op) && t.journal == s.journal
  }

  lemma FilledAdvances(s: State, e: Env, v: Valid, files: Files, more: seq<Command>)
    requires v.id !in s.material
    ensures Advances(s, Filled(s, e, v, files), Review)
    ensures Advances(s, WithCommands(Filled(s, e, v, files), more), Review)
  {
  }

  lemma PendingAdvances(s: State, t: State, r: Reviewed)
    requires Advances(s, t, Review) && r.operation !in s.pending
    ensures Advances(s, WithPending(t, r), Review)
  {
  }

  lemma ReviewAdvances(h: Host, s: State, e: Env, v: Valid, t: State)
    requires Admitted(h, s, e, v) && ReviewReaches(s, e, v, t)
    ensures Advances(s, t, Review)
  {
    hide Advances, CopyMaterial, Authorize, Filled, WithCommands, WithPending, ReviewedFrom;
    var copied, authorized := CopyMaterial(e, v), Authorize(e, v);
    UnchangedAdvances(s, Review);
    FilledAdvances(s, e, v, NO_FILES, []);
    FilledAdvances(s, e, v, copied.files, authorized.commands);
    if copied.outcome.Returned? && authorized.outcome.Returned? {
      var ran := WithCommands(Filled(s, e, v, copied.files), authorized.commands);
      ReviewedSlot(e, v, copied.files, authorized.outcome.value);
      PendingAdvances(s, ran, ReviewedFrom(e, v, copied.files, authorized.outcome.value));
    }
    hide Admitted;
  }

  lemma ReviewedSlot(e: Env, v: Valid, files: Files, authorization: Option<string>)
    ensures ReviewedFrom(e, v, files, authorization).operation == v.operation
  {
  }

  lemma MovedAdvances(s: State, op: Operation, e: Env, r: Reviewed, more: seq<Command>)
    requires r.id !in s.consumed && r.id !in s.results
    ensures Advances(s, Moved(s, op, e, r), op) && Advances(s, WithCommands(Moved(s, op, e, r), more), op)
    ensures Advances(s, Recorded(WithCommands(Moved(s, op, e, r), more), op, e, r), op)
  {
    hide Journal.Continues;
    assert Journal.Continues(s.journal, s.journal) by { UnchangedAdvances(s, op); }
  }

  lemma ExecuteAdvances(s: State, op: Operation, e: Env, r: Reviewed, t: State)
    requires r.id !in s.consumed && r.id !in s.results && ExecuteReaches(s, op, e, r, t)
    ensures Advances(s, t, op)
  {
    MovedAdvances(s, op, e, r, [External(r.id, op)]);
    UnchangedAdvances(s, op);
    hide Advances, Moved, WithCommands, Recorded;
  }

  lemma CommandsAdvance(s: State, more: seq<Command>, op: Operation)
    ensures Advances(s, WithCommands(s, more), op)
  {
  }

  lemma ExecuteStepAdvances(h: Host, s: State, op: Operation, e: Env)
    requires Inv(h, s)
    ensures Advances(s, ExecuteStep(h, s, op, e).0, op)
    ensures ExpiredAt(h, s, op, e.loadedAt) ==> ExecuteStep(h, s, op, e).0.pending == s.pending
  {
    assert op in s.pending ==> Loadable(s.material, op, s.pending[op]);
    var prepared := Prepare(h, s, op, e);
    PrepareFacts(h, s, op, e);
    CommandsAdvance(s, prepared.commands, op);
    hide ExecutePrepared, Prepare, ExecuteReaches;
    if prepared.outcome.Returned? {
      var checked := WithCommands(s, prepared.commands);
      ExecuteStops(checked, op, e, s.pending[op]);
      ExecuteAdvances(checked, op, e, s.pending[op], ExecutePrepared(checked, op, e, s.pending[op]).0);
    }
  }

  lemma ReviewStepAdvances(h: Host, s: State, e: Env)
    ensures Advances(s, ReviewStep(h, s, e).0, Review)
  {
    hide Admit, Admitted, ReviewAdmitted, ReviewReaches;
    if Admit(h, s, e).Returned? {
      AdmitFacts(h, s, e);
      ReviewStops(s, e, Admit(h, s, e).value);
      ReviewAdvances(h, s, e, Admit(h, s, e).value, ReviewAdmitted(s, e, Admit(h, s, e).value).0);
    }
  }

  lemma StatusAdvances(h: Host, s: State, e: Env)
    ensures Advances(s, StatusStep(h, s, e).0, Status) && StatusStep(h, s, e).0.pending == s.pending
  {
    hide JournalReadable, Advances;
    CommandsAdvance(s, PROBES, Status);
    UnchangedAdvances(s, Status);
  }

  lemma VerifyAdvances(s: State, e: Env)
    ensures Advances(s, VerifyStep(s, e).0, Verify) && VerifyStep(s, e).0.pending == s.pending
  {
    hide VerifyBoundary, Advances;
    CommandsAdvance(s, VerifyBoundary(e).commands, Verify);
  }

  lemma RevokeAdvances(s: State, e: Env)
    ensures Advances(s, RevokeStep(s, e).0, Revoke) && RevokeStep(s, e).0.pending == s.pending
  {
    hide RevokeStep;
    RevokeTouchesPolicy(s, e);
  }

  lemma UnchangedAdvances(s: State, op: Operation)
    ensures Advances(s, s, op) && Extends(s, s) && SlotsKept(s.pending, s.pending, op)
  {
  }

  /** The request in the slot `op` has reached its expiry. */
  ghost predicate ExpiredAt(h: Host, s: State, op: Operation, now: Time) {
    op in s.pending && h.parseTimestamp(s.pending[op].expiresAt).Instant?
      && h.parseTimestamp(s.pending[op].expiresAt).value <= now
  }

  /** An operation does not even change its own slot if the request there has expired. */
  lemma OperateAdvances(h: Host, s: State, op: Operation, e: Env)
    requires Inv(h, s)
    ensures Advances(s, Operate(h, s, op, e).0, op)
    ensures ExpiredAt(h, s, op, e.loadedAt) ==> Operate(h, s, op, e).0.pending == s.pending
  {
    assert op in s.pending ==> IsReviewed(op) by {
      assert op in s.pending ==> Loadable(s.material, op, s.pending[op]);
    }
    hide ReviewStep, ExecuteStep, StatusStep, VerifyStep, RevokeStep, AuditRecords, Advances, Inv;
    match op {
      case Status => StatusAdvances(h, s, e);
      case Verify => VerifyAdvances(s, e);
      case Review => ReviewStepAdvances(h, s, e);
      case AuditVerify => UnchangedAdvances(s, op);
      case Revoke => RevokeAdvances(s, e);
      case _ => ExecuteStepAdvances(h, s, op, e);
    }
  }

  lemma DispatchAdvances(h: Host, s: State, op: Operation, e: Env)
    requires Inv(h, s)
    ensures Advances(s, Dispatch(h, s, op, e).0, op)
    ensures ExpiredAt(h, s, op, e.loadedAt) ==> Dispatch(h, s, op, e).0.pending == s.pending
  {
    hide Operate, VerifyInstalled, Advances, Inv, ExpiredAt;
    OperateAdvances(h, s, op, e);
    UnchangedAdvances(s, op);
  }

  lemma InvokeExtends(h: Host, s: State, op: Operation, e: Env)
    requires Inv(h, s)
    ensures Extends(s, Invoke(h, s, op, e).0)
    ensures SlotsKept(s.pending, Invoke(h, s, op, e).0.pending, op)
    ensures ExpiredAt(h, s, op, e.loadedAt) ==> Invoke(h, s, op, e).0.pending == s.pending
  {
    hide Dispatch, Context, Recording, SlotsKept, ConsumedKept, ResultsKept, Inv, ExpiredAt, Journal.Accepted,
         Journal.Continues, Journal.NextRecord, ReportOf, PayloadOf;
    DispatchAdvances(h, s, op, e);
    UnchangedAdvances(s, op);
    var context := Context(h, s, op, e);
    var (after, outcome) := Dispatch(h, s, op, e);
    if context.Returned? && !outcome.Crashed? {
      RecordingContinues(h, after.journal, op, e, context.value, outcome);
    }
  }

  /** Over any run, consumed requests, results, commands and audit records are only ever added to. */
  lemma {:induction false} RunExtends(h: Host, s: State, calls: seq<Call>)
    requires Inv(h, s)
    ensures Extends(s, Run(h, s, calls))
    decreases |calls|
  {
    if calls != [] {
      var t := Invoke(h, s, calls[0].operation, calls[0].env).0;
      InvokeKeeps(h, s, calls[0].operation, calls[0].env);
      InvokeExtends(h, s, calls[0].operation, calls[0].env);
      RunExtends(h, t, calls[1..]);
      Journal.ContinuesTransitive(s.journal, t.journal, Run(h, t, calls[1..]).journal);
      hide Invoke, Journal.Continues, Inv;
    }
  }

  /** No later clock reading is before `now`. */
  ghost predicate NotBefore(calls: seq<Call>, now: Time) {
    forall i | 0 <= i < |calls| :: now <= calls[i].env.loadedAt
  }

  /** Once its time has passed, a pending request stays in its slot, unconsumed and unexecuted, in every continuation. */
  lemma {:induction false} ExpiredNeverExecutes(h: Host, s: State, op: Operation, now: Time, calls: seq<Call>)
    requires Inv(h, s) && ExpiredAt(h, s, op, now) && NotBefore(calls, now)
    ensures
      var t := Run(h, s, calls);
      && op in t.pending && t.pending[op] == s.pending[op]
      && s.pending[op].id !in t.consumed && s.pending[op].id !in t.results
      && Effects(t.commands, s.pending[op].id) == 0
    decreases |calls|
  {
    if calls != [] {
      var call := calls[0];
      InvokeKeeps(h, s, call.operation, call.env);
      InvokeExtends(h, s, call.operation, call.env);
      var t := Invoke(h, s, call.operation, call.env).0;
      assert NotBefore(calls[1..], now);
      ExpiredNeverExecutes(h, t, op, now, calls[1..]);
    }
  }

  /** How each invocation of a run ended. */
  function Outcomes(h: Host, s: State, calls: seq<Call>): seq<Outcome<Payload>>
    decreases |calls|
  {
    if calls == [] then []
    else
      var (t, outcome) := Invoke(h, s, calls[0].operation, calls[0].env);
      [outcome] + Outcomes(h, t, calls[1..])
  }

  function Returns(outcomes: seq<Outcome<Payload>>): nat {
    if outcomes == [] then 0 else (if outcomes[0].Returned? then 1 else 0) + Returns(outcomes[1..])
  }

  lemma RevokedInvoke(h: Host, s: State, op: Operation, e: Env)
    requires !s.sudoers
    ensures var (t, outcome) := Invoke(h, s, op, e);
      t == s.(journal := t.journal) && (outcome.Returned? ==> outcome.value.ErrorReport?)
  {
    hide Operate, Context, Recording, ReportOf, Journal.Accepted, Journal.NextRecord, Host.Encode;
    assert VerifyInstalled(s, e).IsFailure();
    hide VerifyInstalled;
    var context := Context(h, s, op, e);
    var (after, outcome) := Dispatch(h, s, op, e);
    assert after == s && outcome.IsFailure();
    hide Dispatch;
    if context.Returned? && !outcome.Crashed? {
      RecordingContinues(h, s.journal, op, e, context.value, outcome);
    }
  }

  /** Without the policy file every later invocation is denied and changes nothing but the journal. */
  lemma {:induction false} RevokedIsAbsorbing(h: Host, s: State, calls: seq<Call>)
    requires !s.sudoers
    ensures Run(h, s, calls) == s.(journal := Run(h, s, calls).journal)
    ensures forall o | o in Outcomes(h, s, calls) && o.Returned? :: o.value.ErrorReport?
    decreases |calls|
  {
    if calls != [] {
      RevokedInvoke(h, s, calls[0].operation, calls[0].env);
      RevokedIsAbsorbing(h, Invoke(h, s, calls[0].operation, calls[0].env).0, calls[1..]);
    }
  }

  lemma RevokeStepRemoves(s: State, e: Env)
    ensures RevokeStep(s, e).1.Returned? ==> RevokeStep(s, e).0 == s.(sudoers := false, revokedMarker := true)
    ensures RevokeStep(s, e).1.Returned? ==> RevokeStep(s, e).1.value == RevokedReport
  {
  }

  lemma DispatchRevoke(h: Host, s: State, e: Env)
    ensures Dispatch(h, s, Revoke, e).1 == Returned(RevokedReport) ==>
      Dispatch(h, s, Revoke, e).0 == s.(sudoers := false, revokedMarker := true)
    ensures Dispatch(h, s, Revoke, e).1.Raised? || Dispatch(h, s, Revoke, e).1.Crashed?
      || Dispatch(h, s, Revoke, e).1 == Returned(RevokedReport)
  {
    RevokeStepRemoves(s, e);
    hide RevokeStep, VerifyInstalled;
  }

  lemma RevokeRemovesPolicy(h: Host, s: State, e: Env)
    requires Invoke(h, s, Revoke, e).1 == Returned(RevokedReport)
    ensures
      var t := Invoke(h, s, Revoke, e).0;
      t == s.(sudoers := false, revokedMarker := true, journal := t.journal)
  {
    hide Recording, VerifyInstalled, Dispatch, RevokeStep, Journal.Accepted, Journal.NextRecord, ReportOf, LoadPending;
    var (after, outcome) := Dispatch(h, s, Revoke, e);
    DispatchRevoke(h, s, e);
    RecordingContinues(h, after.journal, Revoke, e, None, outcome);
  }

  /** A revocation that returned its report has removed the policy file, so the run that follows is absorbed. */
  lemma RevokeIsAbsorbing(h: Host, s: State, e: Env, t: State, calls: seq<Call>)
    requires Invoke(h, s, Revoke, e) == (t, Returned(RevokedReport))
    ensures t == s.(sudoers := false, revokedMarker := true, journal := t.journal)
    ensures Run(h, t, calls) == t.(journal := Run(h, t, calls).journal)
    ensures forall o | o in Outcomes(h, t, calls) && o.Returned? :: o.value.ErrorReport?
  {
    hide Invoke;
    RevokeRemovesPolicy(h, s, e);
    RevokedIsAbsorbing(h, t, calls);
  }

  predicate SameButMarker(s: State, t: State) { t == s.(revokedMarker := t.revokedMarker) }

  lemma AdmittedIgnoresMarker(s: State, t: State, e: Env, v: Valid)
    requires SameButMarker(s, t)
    ensures SameButMarker(ReviewAdmitted(s, e, v).0, ReviewAdmitted(t, e, v).0)
    ensures ReviewAdmitted(s, e, v).1 == ReviewAdmitted(t, e, v).1
  {
    var copied, authorized := CopyMaterial(e, v), Authorize(e, v);
    StepsIgnoreMarker(s, t, e, v, NO_FILES, [], None);
    StepsIgnoreMarker(s, t, e, v, copied.files, authorized.commands,
      if authorized.outcome.Returned? then Some(ReviewedFrom(e, v, copied.files, authorized.outcome.value)) else None);
    hide CopyMaterial, Authorize, Filled, WithCommands, WithPending, ReviewedFrom, SameButMarker;
  }

  lemma StepsIgnoreMarker(s: State, t: State, e: Env, v: Valid, files: Files, commands: seq<Command>, r: Option<Reviewed>)
    requires SameButMarker(s, t)
    ensures SameButMarker(Filled(s, e, v, files), Filled(t, e, v, files))
    ensures SameButMarker(WithCommands(Filled(s, e, v, files), commands), WithCommands(Filled(t, e, v, files), commands))
    ensures r.Some? ==> SameButMarker(WithPending(WithCommands(Filled(s, e, v, files), commands), r.value),
                                      WithPending(WithCommands(Filled(t, e, v, files), commands), r.value))
  {
  }

  lemma ReviewIgnoresMarker(h: Host, s: State, t: State, e: Env)
    requires SameButMarker(s, t)
    ensures SameButMarker(ReviewStep(h, s, e).0, ReviewStep(h, t, e).0)
    ensures ReviewStep(h, s, e).1 == ReviewStep(h, t, e).1
  {
    hide ValidateRequest, ReviewAdmitted;
    assert Admit(h, s, e) == Admit(h, t, e);
    if Admit(h, s, e).Returned? { AdmittedIgnoresMarker(s, t, e, Admit(h, s, e).value); }
  }

  lemma LoadIgnoresMarker(h: Host, s: State, t: State, op: Operation, e: Env, file: Point, now: Time, verify: bool)
    requires SameButMarker(s, t)
    ensures LoadPending(h, s, op, e, file, now, verify) == LoadPending(h, t, op, e, file, now, verify)
  {
    assert s.pending == t.pending && s.material == t.material;
    hide Patterns.Identifier, Patterns.Commit;
  }

  lemma PreparedIgnoresMarker(s: State, t: State, op: Operation, e: Env, r: Reviewed)
    requires SameButMarker(s, t)
    ensures SameButMarker(ExecutePrepared(s, op, e, r).0, ExecutePrepared(t, op, e, r).0)
    ensures ExecutePrepared(s, op, e, r).1 == ExecutePrepared(t, op, e, r).1
  {
    var ran, same := WithCommands(Moved(s, op, e, r), [External(r.id, op)]),
                     WithCommands(Moved(t, op, e, r), [External(r.id, op)]);
    assert SameButMarker(Moved(s, op, e, r), Moved(t, op, e, r)) && SameButMarker(ran, same);
    assert SameButMarker(Recorded(ran, op, e, r), Recorded(same, op, e, r));
    hide Moved, WithCommands, Recorded, IdentifiersUsable, SameButMarker;
  }

  lemma PrepareIgnoresMarker(h: Host, s: State, t: State, op: Operation, e: Env)
    requires SameButMarker(s, t)
    ensures Prepare(h, s, op, e) == Prepare(h, t, op, e)
  {
    LoadIgnoresMarker(h, s, t, op, e, PendingFile, e.loadedAt, true);
    assert s.consumed == t.consumed;
    hide VerifyBoundary, LoadPending;
  }

  lemma CommandsIgnoreMarker(s: State, t: State, more: seq<Command>)
    requires SameButMarker(s, t)
    ensures SameButMarker(WithCommands(s, more), WithCommands(t, more))
  {
  }

  lemma ExecuteIgnoresMarker(h: Host, s: State, t: State, op: Operation, e: Env)
    requires SameButMarker(s, t)
    ensures SameButMarker(ExecuteStep(h, s, op, e).0, ExecuteStep(h, t, op, e).0)
    ensures ExecuteStep(h, s, op, e).1 == ExecuteStep(h, t, op, e).1
  {
    PrepareIgnoresMarker(h, s, t, op, e);
    var prepared := Prepare(h, s, op, e);
    hide Prepare, ExecutePrepared;
    CommandsIgnoreMarker(s, t, prepared.commands);
    hide SameButMarker, WithCommands;
    if prepared.outcome.Returned? {
      PreparedIgnoresMarker(WithCommands(s, prepared.commands), WithCommands(t, prepared.commands), op, e,
                            prepared.outcome.value);
    }
  }

  lemma StatusIgnoresMarker(h: Host, s: State, t: State, e: Env)
    requires SameButMarker(s, t)
    ensures SameButMarker(StatusStep(h, s, e).0, StatusStep(h, t, e).0) && StatusStep(h, s, e).1 == StatusStep(h, t, e).1
    ensures AuditRecords(h, s, e) == AuditRecords(h, t, e)
  {
    hide Journal.Accepted;
  }

  lemma VerifyIgnoresMarker(s: State, t: State, e: Env)
    requires SameButMarker(s, t)
    ensures SameButMarker(VerifyStep(s, e).0, VerifyStep(t, e).0) && VerifyStep(s, e).1 == VerifyStep(t, e).1
  {
    hide VerifyBoundary;
  }

  lemma RevokeIgnoresMarker(s: State, t: State, e: Env)
    requires SameButMarker(s, t)
    ensures SameButMarker(RevokeStep(s, e).0, RevokeStep(t, e).0) && RevokeStep(s, e).1 == RevokeStep(t, e).1
  {
  }

  lemma OperateIgnoresMarker(h: Host, s: State, t: State, op: Operation, e: Env)
    requires SameButMarker(s, t)
    ensures SameButMarker(Operate(h, s, op, e).0, Operate(h, t, op, e).0)
    ensures Operate(h, s, op, e).1 == Operate(h, t, op, e).1
  {
    hide ReviewStep, ExecuteStep, StatusStep, VerifyStep, AuditRecords, RevokeStep;
    StatusIgnoresMarker(h, s, t, e);
    VerifyIgnoresMarker(s, t, e);
    RevokeIgnoresMarker(s, t, e);
    ExecuteIgnoresMarker(h, s, t, op, e);
    ReviewIgnoresMarker(h, s, t, e);
  }

  lemma DispatchIgnoresMarker(h: Host, s: State, t: State, op: Operation, e: Env)
    requires SameButMarker(s, t)
    ensures SameButMarker(Dispatch(h, s, op, e).0, Dispatch(h, t, op, e).0)
    ensures Dispatch(h, s, op, e).1 == Dispatch(h, t, op, e).1
    ensures Context(h, s, op, e) == Context(h, t, op, e)
  {
    hide Operate, LoadPending;
    OperateIgnoresMarker(h, s, t, op, e);
    LoadIgnoresMarker(h, s, t, op, e, ContextLoad, e.contextAt, false);
  }

  /** The marker left by a revocation is never read: with or without it an invocation does the same. */
  lemma MarkerIsNeverRead(h: Host, s: State, t: State, op: Operation, e: Env)
    requires SameButMarker(s, t)
    ensures SameButMarker(Invoke(h, s, op, e).0, Invoke(h, t, op, e).0)
    ensures Invoke(h, s, op, e).1 == Invoke(h, t, op, e).1
  {
    hide Dispatch, Context, Recording;
    DispatchIgnoresMarker(h, s, t, op, e);
  }
}
