/** What a review or an execution that reports success has established. */
module AdminMeaning {
  import opened Prelude
  import opened ReviewedOperations
  import opened AdminSafety
  import Json
  import Patterns

  /** The request is complete and inside its time window, and says what the review goes on with. */
  ghost predicate RequestValid(h: Host, request: Request, now: Time, v: Valid) {
    && request.Keys == ExpectedKeys(v.operation)
    && Json.EqualsInt(request[SchemaVersionKey], 1)
    && OperationNamed(request[OperationKey]) == Some(v.operation)
    && request[RequestIdKey] == Json.Str(v.id) && request[CandidateCommitKey] == Json.Str(v.candidate)
    && request[CreatedAtKey] == v.createdAt && request[ExpiresAtKey] == v.expiresAt
    && h.parseTimestamp(v.createdAt).Instant? && InWindow(h.parseTimestamp(v.createdAt).value, now)
    && request[ReasonKey].Str? && Patterns.Reason(request[ReasonKey].s)
    && request[ApprovalReferenceKey].Str? && Patterns.ApprovalReference(request[ApprovalReferenceKey].s)
    && (!v.operation.CutoverReviewed? ==>
          && request[ManifestFileKey].Str? && Patterns.Filename(request[ManifestFileKey].s, ".json")
          && request[ManifestSha256Key] == Json.Str(v.manifestSha))
    && (v.operation.DeployReviewed? ==>
          && request[BundleFileKey].Str? && Patterns.Filename(request[BundleFileKey].s, ".bundle")
          && request[BundleSha256Key] == Json.Str(v.bundleSha))
    && (if v.operation.Rollback? then v.operationId.Some? && request[OperationIdKey] == Json.Str(v.operationId.value)
        else v.operationId.None?)
  }

  lemma ValidRequest(h: Host, request: Request, now: Time)
    ensures ValidateRequest(h, request, now).Returned? ==>
      RequestValid(h, request, now, ValidateRequest(h, request, now).value)
  {
    hide Patterns.Identifier, Patterns.Commit, Patterns.Sha256, Patterns.Reason, Patterns.ApprovalReference,
         Patterns.Filename, Json.EqualsInt, InWindow, Unexpired;
  }

  /** The request on disk is valid, and not yet known to any store. */
  ghost predicate RequestAccepted(h: Host, s: State, e: Env, v: Valid) {
    e.request.Some? && RequestValid(h, e.request.value, e.validatedAt, v) && Admitted(h, s, e, v)
  }

  lemma AcceptedRequest(h: Host, s: State, e: Env)
    ensures Admit(h, s, e).Returned? ==> RequestAccepted(h, s, e, Admit(h, s, e).value)
  {
    hide Admitted, ValidateRequest, RequestValid;
    if Admit(h, s, e).Returned? {
      AdmitFacts(h, s, e);
      assert ValidateRequest(h, e.request.value, e.validatedAt).Returned?;
      ValidRequest(h, e.request.value, e.validatedAt);
    }
  }

  /** Exactly the files the operation needs were copied, each with the digest the request asked for. */
  predicate CopiedAsAsked(e: Env, v: Valid, files: Files) {
    && files.request == Stored(e.requestDigest)
    && files.manifest == (if v.operation.CutoverReviewed? then Missing else Stored(v.manifestSha))
    && files.bundle == (if v.operation.DeployReviewed? then Stored(v.bundleSha) else Missing)
    && (!v.operation.CutoverReviewed? ==> e.manifestCandidate == Json.Str(v.candidate))
  }

  lemma CopiesAsAsked(e: Env, v: Valid)
    requires IsReviewed(v.operation)
    ensures CopyMaterial(e, v).outcome.Returned? ==> CopiedAsAsked(e, v, CopyMaterial(e, v).files)
  {
  }

  /** The commands a review runs, in order, when nothing stops it. */
  function ReviewCommands(v: Valid): seq<Command> {
    (if v.operation.DeployReviewed?
     then [GitBundleVerify, GitStatus, GitFetch(v.candidate), GitCheckout(v.candidate), GitRevParse] else [])
    + (if v.operation.CutoverReviewed? then [] else [PromoteVerify(v.id), PromoteAuthorize(v.id, v.operation)])
  }

  /** The candidate is checked out from a clean repository, or is the active release; and the action is authorized. */
  predicate CandidateInPlace(e: Env, v: Valid) {
    if v.operation.DeployReviewed? then e.repositoryClean && e.checkedOut == v.candidate
    else e.currentCommit(ReviewCommit) == Some(v.candidate)
  }

  lemma PrepareRepositoryShows(e: Env, candidate: string)
    ensures
      var ran := PrepareRepository(e, candidate);
      var all := [GitBundleVerify, GitStatus, GitFetch(candidate), GitCheckout(candidate), GitRevParse];
      && ran.commands <= all
      && (ran.outcome.Returned? ==> ran.commands == all && e.repositoryClean && e.checkedOut == candidate)
  {
  }

  lemma AuthorizeShows(e: Env, v: Valid)
    requires IsReviewed(v.operation)
    ensures
      var ran := Authorize(e, v);
      && ran.commands <= ReviewCommands(v)
      && (ran.outcome.Returned? ==>
            && ran.commands == ReviewCommands(v) && CandidateInPlace(e, v)
            && (if v.operation.CutoverReviewed? then ran.outcome.value.None?
                else ran.outcome.value.Some? && e.authorizationId == Json.Str(ran.outcome.value.value)))
  {
    PrepareRepositoryShows(e, v.candidate);
    hide PrepareRepository;
  }

  /** A review that reports success has put exactly one operation into a free slot: for the request it read, with copies
      of the digests asked for, for a candidate it saw in place, and with the authorization it obtained for it. */
  lemma ReviewShows(h: Host, s: State, e: Env)
    ensures
      var (t, outcome) := ReviewStep(h, s, e);
      outcome.Returned? ==>
        exists v :: RequestAccepted(h, s, e, v) && v.operation in t.pending
          && var r := t.pending[v.operation];
             && r == Reviewed(v.id, v.operation, v.candidate, v.createdAt, v.expiresAt, e.reviewedAt, r.digests, v.id,
                              r.authorizationId, v.operationId)
             && CopiedAsAsked(e, v, r.digests) && CandidateInPlace(e, v)
             && (if v.operation.CutoverReviewed? then r.authorizationId.None?
                 else r.authorizationId.Some? && e.authorizationId == Json.Str(r.authorizationId.value))
             && t == s.(material := s.material[v.id := Material(r.digests, e.validatedAt)],
                        pending := s.pending[v.operation := r], commands := s.commands + ReviewCommands(v))
             && outcome.value == ReviewedReport(v.id, v.operation, v.candidate, r.digests)
  {
    if ReviewStep(h, s, e).1.Returned? {
      var v := Admit(h, s, e).value;
      AcceptedRequest(h, s, e);
      assert Admitted(h, s, e, v);
      CopiesAsAsked(e, v);
      AuthorizeShows(e, v);
      hide Admit, CopyMaterial, Authorize, RequestAccepted, CopiedAsAsked, CandidateInPlace, ReviewCommands;
      assert ReviewStep(h, s, e) == ReviewAdmitted(s, e, v);
      assert ReviewStep(h, s, e).0.pending[v.operation].digests == CopyMaterial(e, v).files;
    }
  }

  /** What stands between a pending operation and its external command. */
  ghost predicate ReadyToRun(h: Host, s: State, op: Operation, e: Env) {
    && op in s.pending
    && var r := s.pending[op];
    && r.operation == op && r.materialRoot == r.id && r.id !in s.consumed
    && h.parseTimestamp(r.expiresAt).Instant? && e.loadedAt < h.parseTimestamp(r.expiresAt).value
    && !r.digests.Empty() && r.id in s.material && r.digests.FoundIn(s.material[r.id].files)
    && (!op.DeployReviewed? ==> e.currentCommit(ExecuteCommit) == Some(r.candidate))
    && e.currentCommit(BoundaryCommit).Some? && e.boundarySucceeds && e.boundarySummaryClean
  }

  lemma PreparedIsReady(h: Host, s: State, op: Operation, e: Env)
    ensures
      var ran := Prepare(h, s, op, e);
      && ran.commands <= [BoundaryVerifier]
      && (ran.outcome.Returned? ==>
            ReadyToRun(h, s, op, e) && ran.outcome.value == s.pending[op] && ran.commands == [BoundaryVerifier])
  {
    hide Patterns.Identifier, Patterns.Commit;
  }

  /** Where an execution can end once its checks have passed: up to the rename, or with its command on record. */
  lemma PreparedRuns(s: State, op: Operation, e: Env, r: Reviewed)
    ensures
      var (t, outcome) := ExecutePrepared(s, op, e, r);
      var ran := WithCommands(Moved(s, op, e, r), [External(r.id, op)]);
      && (t == s || t == Moved(s, op, e, r)
          || (IdentifiersUsable(r, op) && (t == ran || t == Recorded(ran, op, e, r))))
      && (outcome == Raised(ExecuteIdentifiers) ==> !IdentifiersUsable(r, op))
      && (outcome.Returned? ==>
            && e.commandSucceeds(ExternalCommand)
            && t == Recorded(ran, op, e, r)
            && outcome.value == Completed(op, e, r))
  {
    hide IdentifiersUsable, Moved, WithCommands, Recorded;
  }

  /** An external command starts only for a pending operation that is unexpired, whose artifacts are as reviewed, whose
      candidate is still active and whose identity boundary holds; nothing but the boundary check runs before it. */
  lemma CommandNeedsReadiness(h: Host, s: State, op: Operation, e: Env)
    ensures
      var t := ExecuteStep(h, s, op, e).0;
      || t.commands <= s.commands + [BoundaryVerifier]
      || (ReadyToRun(h, s, op, e) && IdentifiersUsable(s.pending[op], op)
          && t.commands == s.commands + [BoundaryVerifier, External(s.pending[op].id, op)]
          && op !in t.pending && s.pending[op].id in t.consumed)
  {
    PreparedIsReady(h, s, op, e);
    hide Prepare, ExecutePrepared, ReadyToRun, IdentifiersUsable;
    var prepared := Prepare(h, s, op, e);
    if prepared.outcome.Returned? {
      PreparedRuns(WithCommands(s, prepared.commands), op, e, prepared.outcome.value);
      var command := External(prepared.outcome.value.id, op);
      assert s.commands + prepared.commands + [command] == s.commands + [BoundaryVerifier, command];
    }
  }

  /** An execution that reports success has moved its request from pending to consumed, run its command once, and
      recorded the result; every other request is untouched. */
  lemma ExecuteShows(h: Host, s: State, op: Operation, e: Env)
    ensures
      var (t, outcome) := ExecuteStep(h, s, op, e);
      outcome.Returned? ==>
        && ReadyToRun(h, s, op, e)
        && var r := s.pending[op];
           && t == s.(pending := s.pending - {op},
                      consumed := s.consumed[r.id := Consumed(r, e.loadedAt)],
                      results := s.results[r.id := ResultFile(op, r.candidate, e.completedAt)],
                      commands := s.commands + [BoundaryVerifier, External(r.id, op)])
           && outcome.value == CompletedReport(r.id, op, r.candidate, r.digests, !op.CutoverReviewed? && e.rollbackRequired)
           && e.commandSucceeds(ExternalCommand)
  {
    PreparedIsReady(h, s, op, e);
    hide Prepare, ExecutePrepared, ReadyToRun, IdentifiersUsable;
    var prepared := Prepare(h, s, op, e);
    if prepared.outcome.Returned? {
      PreparedRuns(WithCommands(s, prepared.commands), op, e, prepared.outcome.value);
      var command := External(prepared.outcome.value.id, op);
      assert s.commands + prepared.commands + [command] == s.commands + [BoundaryVerifier, command];
    }
  }

  /** In every run, each external command that was started belongs to a consumed request for just that operation, whose
      identifiers were usable and whose material is, to the end, the material that was reviewed. */
  lemma ExecutedWasReviewed(h: Host, calls: seq<Call>, id: Id, op: Operation)
    ensures
      var s := Run(h, Installed(), calls);
      External(id, op) in s.commands ==>
        && id in s.consumed && id in s.material
        && var r := s.consumed[id].reviewed;
           && r.id == id && r.operation == op && Patterns.Commit(r.candidate) && IdentifiersUsable(r, op)
           && !r.digests.Empty() && s.material[id].files == r.digests
  {
    InstalledInv(h);
    RunKeeps(h, Installed(), calls);
    hide Patterns.Commit, IdentifiersUsable, Run;
    var s := Run(h, Installed(), calls);
    if External(id, op) in s.commands {
      var r := s.consumed[id].reviewed;
      assert Loadable(s.material, r.operation, r);
    }
  }

  lemma PrepareRaises(h: Host, s: State, op: Operation, e: Env)
    ensures Prepare(h, s, op, e).outcome != Raised(ExecuteIdentifiers)
  {
    hide Patterns.Identifier, Patterns.Commit, Patterns.Sha256, Files.Hex, Files.Empty, Files.FoundIn;
  }

  /** In a sound state the identifiers of a pending operation are never found unusable. */
  lemma IdentifiersNeverFail(h: Host, s: State, op: Operation, e: Env)
    requires Inv(h, s)
    ensures ExecuteStep(h, s, op, e).1 != Raised(ExecuteIdentifiers)
  {
    PrepareRaises(h, s, op, e);
    PrepareFacts(h, s, op, e);
    var prepared := Prepare(h, s, op, e);
    if prepared.outcome.Returned? {
      assert Loadable(s.material, op, s.pending[op]);
      PreparedRuns(WithCommands(s, prepared.commands), op, e, s.pending[op]);
    }
    hide Prepare, ExecutePrepared, IdentifiersUsable, Inv;
  }
}
