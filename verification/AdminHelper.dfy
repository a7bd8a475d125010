/** The helper as it runs: one object whose methods update its stores, proved against the step functions. */
module AdminHelper {
  import opened Prelude
  import opened ReviewedOperations
  import opened AdminSafety
  import opened AdminJournal
  import Json
  import Patterns
  import Journal = AuditJournal

  class MiniLLMAdmin {
    const host: Host
    const audit: Journal.AdminAuditJournal
    var material: map<Id, Material>
    var pending: map<Operation, Reviewed>
    var consumed: map<Id, Consumed>
    var results: map<Id, ResultFile>
    var sudoers: bool
    var revokedMarker: bool
    var commands: seq<Command>
    /** Every invocation so far. */
    ghost var calls: seq<Call>

    constructor (host: Host)
      ensures this.host == host && fresh(audit) && Valid() && calls == []
    {
      this.host := host;
      audit := new Journal.AdminAuditJournal(host.sha);
      material, pending, consumed, results := map[], map[], map[], map[];
      sudoers, revokedMarker, commands := true, false, [];
      calls := [];
    }

    /** Between invocations the stores are those of the run so far, so that the theorems about runs are about them. */
    ghost predicate Valid()
      reads this, audit
    {
      audit.sha == host.sha && Stores() == Run(host, Installed(), calls)
    }

    function Stores(): State
      reads this, audit
    {
      State(material, pending, consumed, results, sudoers, revokedMarker, audit.file, commands)
    }

    /** Write the copies one at a time into the material directory of the request. */
    method CopyReviewMaterial(e: Env, v: Valid) returns (r: Outcome<()>)
      requires v.id in material && material[v.id] == Material(NO_FILES, e.validatedAt)
      modifies this`material
      ensures r == CopyMaterial(e, v).outcome
      ensures material == old(material)[v.id := Material(CopyMaterial(e, v).files, e.validatedAt)]
    {
      var files := NO_FILES.(request := Put(e, WriteRequest, e.requestDigest));
      material := material[v.id := Material(files, e.validatedAt)];
      var _ :- e.Gate(WriteRequest, true);
      if v.operation.CutoverReviewed? { return Returned(()); }
      var _ :- e.Gate(ReadManifest, true);
      if e.manifestDigest != v.manifestSha { return Raised(ManifestDigest); }
      files := files.(manifest := Put(e, WriteManifest, e.manifestDigest));
      material := material[v.id := Material(files, e.validatedAt)];
      var _ :- e.Gate(WriteManifest, true);
      var _ :- e.Gate(ManifestCandidate, e.manifestCandidate == Json.Str(v.candidate));
      if v.operation.Rollback? { return Returned(()); }
      var _ :- e.Gate(ReadBundle, true);
      if e.bundleDigest != v.bundleSha { return Raised(BundleDigest); }
      files := files.(bundle := Put(e, WriteBundle, e.bundleDigest));
      material := material[v.id := Material(files, e.validatedAt)];
      var _ :- e.Gate(WriteBundle, true);
      return Returned(());
    }

    /** Start one command; it is on record before its result is known. */
    method RunCommand(e: Env, at: Point, command: Command, succeeds: bool) returns (r: Outcome<()>)
      modifies this`commands
      ensures commands == old(commands) + [command] && r == e.Gate(at, succeeds)
    {
      commands := commands + [command];
      r := e.Gate(at, succeeds);
    }

    method PrepareTrustedRepository(e: Env, candidate: string) returns (r: Outcome<()>)
      modifies this`commands
      ensures commands == old(commands) + PrepareRepository(e, candidate).commands
      ensures r == PrepareRepository(e, candidate).outcome
    {
      hide CheckOut;
      r := RunCommand(e, BundleVerify, GitBundleVerify, e.commandSucceeds(BundleVerify));
      if r.IsFailure() { return; }
      r := RunCommand(e, RepositoryStatus, GitStatus, e.commandSucceeds(RepositoryStatus));
      if r.IsFailure() { return; }
      if !e.repositoryClean { return Raised(RepositoryClean); }
      r := CheckOutCandidate(e, candidate);
    }

    method CheckOutCandidate(e: Env, candidate: string) returns (r: Outcome<()>)
      modifies this`commands
      ensures commands == old(commands) + CheckOut(e, candidate).commands && r == CheckOut(e, candidate).outcome
    {
      r := RunCommand(e, Fetch, GitFetch(candidate), e.commandSucceeds(Fetch));
      if r.IsFailure() { return; }
      r := RunCommand(e, Checkout, GitCheckout(candidate), e.commandSucceeds(Checkout));
      if r.IsFailure() { return; }
      r := RunCommand(e, RevParse, GitRevParse, e.commandSucceeds(RevParse));
      if r.IsFailure() { return; }
      r := Need(e.checkedOut == candidate, CheckedOutCandidate);
    }

    method ObtainAuthorization(e: Env, v: Valid) returns (r: Outcome<Option<string>>)
      modifies this`commands
      ensures commands == old(commands) + Authorize(e, v).commands && r == Authorize(e, v).outcome
    {
      hide PrepareRepository;
      if v.operation.DeployReviewed? {
        var prepared := PrepareTrustedRepository(e, v.candidate);
        if prepared.IsFailure() { return prepared.PropagateFailure(); }
      } else {
        var _ :- e.Gate(ReviewCommit, e.currentCommit(ReviewCommit) == Some(v.candidate));
      }
      if v.operation.CutoverReviewed? { return Returned(None); }
      var verified := RunCommand(e, TrustedVerify, PromoteVerify(v.id), e.commandSucceeds(TrustedVerify));
      if verified.IsFailure() { return verified.PropagateFailure(); }
      var granted := RunCommand(e, TrustedAuthorize, PromoteAuthorize(v.id, v.operation),
                                e.commandSucceeds(TrustedAuthorize));
      if granted.IsFailure() { return granted.PropagateFailure(); }
      if !(e.authorizationId.Str? && Patterns.Identifier(e.authorizationId.s)) { return Raised(AuthorizationId); }
      return Returned(Some(e.authorizationId.s));
    }

    method ReviewMaterial(e: Env, v: Valid) returns (r: Outcome<Payload>)
      modifies this`material, this`pending, this`commands
      ensures (Stores(), r) == ReviewAdmitted(old(Stores()), e, v)
    {
      hide CopyMaterial, Authorize;
      if e.Applied(MakeDirectory) { material := material[v.id := Material(NO_FILES, e.validatedAt)]; }
      var _ :- e.Gate(MakeDirectory, true);
      var copied := CopyReviewMaterial(e, v);
      assert material == old(material)[v.id := Material(CopyMaterial(e, v).files, e.validatedAt)];
      if copied.IsFailure() { return copied.PropagateFailure(); }
      var authorization := ObtainAuthorization(e, v);
      if authorization.IsFailure() { return authorization.PropagateFailure(); }
      var digests := material[v.id].files;
      if e.Applied(WritePending) {
        pending := pending[v.operation := ReviewedFrom(e, v, digests, authorization.value)];
      }
      var _ :- e.Gate(WritePending, true);
      return Returned(ReviewedReport(v.id, v.operation, v.candidate, digests));
    }

    method Review(e: Env) returns (r: Outcome<Payload>)
      modifies this`material, this`pending, this`commands
      ensures (Stores(), r) == ReviewStep(host, old(Stores()), e)
    {
      hide Admit, ReviewAdmitted;
      var v :- Admit(host, Stores(), e);
      r := ReviewMaterial(e, v);
    }

    method VerifyIdentityBoundary(e: Env) returns (r: Outcome<()>)
      modifies this`commands
      ensures commands == old(commands) + VerifyBoundary(e).commands && r == VerifyBoundary(e).outcome
    {
      var _ :- e.Gate(BoundaryCommit, e.currentCommit(BoundaryCommit).Some?);
      r := RunCommand(e, BoundaryRun, BoundaryVerifier, e.boundarySucceeds);
      if r.IsFailure() { return; }
      r := Need(e.boundarySummaryClean, BoundarySummary);
    }

    /** Everything up to the point where the pending operation is moved away. */
    method CheckReviewed(op: Operation, e: Env) returns (r: Outcome<Reviewed>)
      modifies this`commands
      ensures commands == old(commands) + Prepare(host, old(Stores()), op, e).commands
      ensures r == Prepare(host, old(Stores()), op, e).outcome
    {
      hide LoadPending, VerifyBoundary;
      var reviewed :- LoadPending(host, Stores(), op, e, PendingFile, e.loadedAt, true);
      if !op.DeployReviewed? {
        var _ :- e.Gate(ExecuteCommit, e.currentCommit(ExecuteCommit).Some?);
        if e.currentCommit(ExecuteCommit) != Some(reviewed.candidate) { return Raised(ExecuteDrift); }
      }
      var boundary := VerifyIdentityBoundary(e);
      if boundary.IsFailure() { return boundary.PropagateFailure(); }
      if reviewed.id in consumed { return Raised(AlreadyConsumed); }
      return Returned(reviewed);
    }

    method ExecuteReviewed(op: Operation, e: Env) returns (r: Outcome<Payload>)
      modifies this`pending, this`consumed, this`results, this`commands
      ensures (Stores(), r) == ExecuteStep(host, old(Stores()), op, e)
    {
      hide Prepare, ExecutePrepared;
      var checked := CheckReviewed(op, e);
      if checked.IsFailure() { return checked.PropagateFailure(); }
      r := RunReviewed(op, e, checked.value);
    }

    /** From here on the request is no longer pending. */
    method RunReviewed(op: Operation, e: Env, reviewed: Reviewed) returns (r: Outcome<Payload>)
      modifies this`pending, this`consumed, this`results, this`commands
      ensures (Stores(), r) == ExecutePrepared(old(Stores()), op, e, reviewed)
    {
      hide IdentifiersUsable;
      if e.Applied(ConsumeRename) {
        consumed := consumed[reviewed.id := Consumed(reviewed, e.loadedAt)];
        pending := pending - {op};
      }
      var _ :- e.Gate(ConsumeRename, true);
      if !IdentifiersUsable(reviewed, op) { return Raised(ExecuteIdentifiers); }
      var ran := RunCommand(e, ExternalCommand, External(reviewed.id, op), e.commandSucceeds(ExternalCommand));
      if ran.IsFailure() { return ran.PropagateFailure(); }
      if e.Applied(WriteResult) {
        results := results[reviewed.id := ResultFile(op, reviewed.candidate, e.completedAt)];
      }
      var _ :- e.Gate(WriteResult, true);
      return Returned(Completed(op, e, reviewed));
    }

    method RevokePasswordless(e: Env) returns (r: Outcome<Payload>)
      modifies this`sudoers, this`revokedMarker
      ensures (Stores(), r) == RevokeStep(old(Stores()), e)
    {
      if e.Applied(RemoveSudoers) { sudoers := false; }
      var _ :- e.Gate(RemoveSudoers, true);
      if e.Applied(WriteMarker) { revokedMarker := true; }
      var _ :- e.Gate(WriteMarker, true);
      return Returned(RevokedReport);
    }

    /** Ask every service and endpoint; a failure is an answer, too. */
    method Probe(probes: seq<Command>, e: Env) returns (health: map<Command, bool>, ready: bool)
      modifies this`commands
      ensures commands == old(commands) + probes && health == Health(e, probes)
      ensures ready <==> forall c | c in probes :: e.answers(c)
    {
      health, ready := map[], true;
      assert probes[..0] == [];
      for i := 0 to |probes|
        invariant commands == old(commands) + probes[..i]
        invariant health == Health(e, probes[..i]) && (ready <==> forall c | c in probes[..i] :: e.answers(c))
      {
        commands := commands + [probes[i]];
        health := health[probes[i] := e.answers(probes[i])];
        ready := ready && e.answers(probes[i]);
        assert probes[..i + 1] == probes[..i] + [probes[i]];
      }
      assert probes[..|probes|] == probes;
    }

    method ReportStatus(e: Env) returns (r: Outcome<Payload>)
      requires audit.sha == host.sha
      modifies this`commands
      ensures (Stores(), r) == StatusStep(host, old(Stores()), e)
    {
      var _ :- e.Gate(StatusCommit, e.currentCommit(StatusCommit).Some?);
      var health, ready := Probe(PROBES, e);
      var read := audit.ReadAll(e.journalAccessible);
      var _ :- e.Gate(StatusAudit, read.Ok?);
      Journal.RecordsOfAccepted(host.sha, audit.file.lines);
      return Returned(StatusReport(e.currentCommit(StatusCommit).value, health, ready, pending.Keys, |read.value|));
    }

    method VerifyJournal(e: Env) returns (r: Outcome<Payload>)
      requires audit.sha == host.sha
      ensures r == AuditRecords(host, Stores(), e)
    {
      var read := audit.ReadAll(e.journalAccessible);
      var _ :- e.Gate(AuditRead, read.Ok?);
      Journal.RecordsOfAccepted(host.sha, audit.file.lines);
      var records := read.value;
      var last := if records == [] then Json.Null else Journal.At(records[|records| - 1], Journal.RecordSha256);
      return Returned(AuditReport(|records|, last));
    }

    method DispatchOperation(op: Operation, e: Env) returns (r: Outcome<Payload>)
      requires audit.sha == host.sha
      modifies this
      ensures (Stores(), r) == Dispatch(host, old(Stores()), op, e) && calls == old(calls)
    {
      hide ReviewStep, ExecuteStep, StatusStep, RevokeStep, AuditRecords, VerifyBoundary, VerifyInstalled;
      var _ :- VerifyInstalled(Stores(), e);
      match op {
        case Status => r := ReportStatus(e);
        case Verify =>
          var boundary := VerifyIdentityBoundary(e);
          r := if boundary.IsFailure() then boundary.PropagateFailure() else Returned(Verified);
        case Review => r := Review(e);
        case AuditVerify => r := VerifyJournal(e);
        case Revoke => r := RevokePasswordless(e);
        case _ => r := ExecuteReviewed(op, e);
      }
    }

    /** One invocation under the lock: dispatch, then one audit record whatever the operation answered. */
    method InvokeOperation(op: Operation, e: Env) returns (r: Outcome<Payload>)
      requires Valid()
      modifies this, audit
      ensures Valid() && calls == old(calls) + [Call(op, e)]
      ensures (Stores(), r) == Invoke(host, old(Stores()), op, e)
    {
      RunSnoc(host, Installed(), calls, Call(op, e));
      r := InvokeLocked(op, e);
      calls := calls + [Call(op, e)];
    }

    method InvokeLocked(op: Operation, e: Env) returns (r: Outcome<Payload>)
      requires audit.sha == host.sha
      modifies this, audit
      ensures (Stores(), r) == Invoke(host, old(Stores()), op, e) && calls == old(calls)
    {
      hide Context, Dispatch, ReportOf, Journal.Accepted, Journal.NextRecord, Journal.Written, Host.Encode;
      var _ :- e.Gate(Operator, e.operatorMatches);
      var _ :- e.Gate(Lock, true);
      var context :- Context(host, Stores(), op, e);
      var outcome := DispatchOperation(op, e);
      if outcome.Crashed? { return outcome; }
      var stored := audit.Append(host.Encode(ReportOf(op, e, context, outcome)), e.journalAccessible, e.journalWrite);
      return
        if stored.Ok? then Returned(PayloadOf(op, outcome))
        else if stored.error.Ended? then Crashed(JournalAppend)
        else Raised(JournalAppend);
    }

    /** What the stores of the object show after any sequence of invocations. */
    lemma StoresSound(id: Id)
      requires Valid()
      ensures Inv(host, Stores()) && Effects(commands, id) <= 1
      ensures id in results ==> id in consumed && Effects(commands, id) == 1
      ensures forall op | op in pending && pending[op].id == id :: id !in consumed && Effects(commands, id) == 0
      ensures NoneFused(Marks(host, Installed(), calls)) ==>
        Returns(Outcomes(host, Installed(), calls)) <= Readable(host, audit.file) <= |calls|
    {
      JournalCountsReturns(host, calls);
      EffectAtMostOnce(host, calls, id);
      InstalledInv(host);
      RunKeeps(host, Installed(), calls);
    }
  }
}
