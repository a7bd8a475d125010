/** The administration helper: a reviewed request moves through material, pending, consumed and result. */
module ReviewedOperations {
  import opened Prelude
  import Json
  import Patterns
  import Journal = AuditJournal

  type Id = string
  type Time = int

  /** Clock readings are counted in microseconds. */
  const MINUTE: Time := 60_000_000
  const HOUR: Time := 60 * MINUTE

  datatype Operation =
    | Status | Verify | Review | AuditVerify | Revoke
    | DeployReviewed | CutoverReviewed | Rollback

  predicate IsReviewed(op: Operation) { op.DeployReviewed? || op.CutoverReviewed? || op.Rollback? }

  /** Every place where an invocation can stop, by name. */
  datatype Point =
    | Operator | Lock
    | InstalledDirectories | InstalledAllowlist | InstalledArtifacts
    | StatusCommit | StatusAudit | AuditRead
    | BoundaryCommit | BoundaryRun | BoundarySummary
    | SourceDirectory | ReadRequest
    | RequestOperation | RequestFields | RequestId | RequestCandidate | RequestReason | RequestReference
    | RequestCreated | RequestExpires | RequestCreationWindow | RequestExpirationWindow
    | RequestManifest | RequestBundle | RequestOperationId
    | PendingSlot | IdConsumed | MaterialExists | MakeDirectory | WriteRequest
    | ReadManifest | ManifestDigest | WriteManifest | ManifestCandidate
    | ReadBundle | BundleDigest | WriteBundle
    | BundleVerify | RepositoryStatus | RepositoryClean | Fetch | Checkout | RevParse | CheckedOutCandidate
    | ReviewCommit | TrustedVerify | TrustedAuthorize | AuthorizationId
    | WritePending
    | ContextLoad
    | PendingFile | PendingSchema | PendingExpiry | PendingMaterial | PendingDigests | ArtifactsIntact
    | ExecuteCommit | ExecuteDrift
    | AlreadyConsumed | ConsumeRename | ExecuteIdentifiers | ExternalCommand
    | WriteResult | RemoveSudoers | WriteMarker
    | JournalAppend

  /** What the outside world does at a point: let it pass, refuse it, or end the process before or after it. */
  datatype Fault = Pass | Deny | Crash | CrashAfter

  /** `Raised` is an administration error; `Crashed` is any other way for an invocation to end. */
  datatype Outcome<+T> = Returned(value: T) | Raised(at: Point) | Crashed(at: Point) {
    predicate IsFailure() { !Returned? }
    function PropagateFailure<U>(): Outcome<U>
      requires IsFailure()
    {
      if Raised? then Raised(at) else Crashed(at)
    }
    function Extract(): T
      requires !IsFailure()
    {
      value
    }
  }

  datatype Copy = Missing | Stored(digest: string)

  /** The copies of request.json, candidate.json and candidate.bundle inside a material directory, by digest. */
  datatype Files = Files(request: Copy, manifest: Copy, bundle: Copy) {
    predicate Empty() { request.Missing? && manifest.Missing? && bundle.Missing? }
    predicate Hex() {
      && (request.Stored? ==> Patterns.Sha256(request.digest))
      && (manifest.Stored? ==> Patterns.Sha256(manifest.digest))
      && (bundle.Stored? ==> Patterns.Sha256(bundle.digest))
    }
    /** Every file listed here is stored with the same digest in `other`. */
    predicate FoundIn(other: Files) {
      && (request.Stored? ==> other.request == request)
      && (manifest.Stored? ==> other.manifest == manifest)
      && (bundle.Stored? ==> other.bundle == bundle)
    }
  }

  const NO_FILES := Files(Missing, Missing, Missing)

  datatype RequestKey =
    | SchemaVersionKey | RequestIdKey | OperationKey | CreatedAtKey | ExpiresAtKey | CandidateCommitKey
    | ReasonKey | ApprovalReferenceKey | ManifestFileKey | ManifestSha256Key | BundleFileKey | BundleSha256Key
    | OperationIdKey | UnexpectedKey(name: string)

  type Request = map<RequestKey, Json.Value>

  /** What a validated request contributes to the review. */
  datatype Valid = Valid(
    id: Id, operation: Operation, candidate: string, createdAt: Json.Value, expiresAt: Json.Value,
    manifestSha: string, bundleSha: string, operationId: Option<string>)

  /** The reviewed operation stored under `pending`, later moved to `consumed`. */
  datatype Reviewed = Reviewed(
    id: Id, operation: Operation, candidate: string, createdAt: Json.Value, expiresAt: Json.Value,
    reviewedAt: Time, digests: Files, materialRoot: Id,
    authorizationId: Option<string>, operationId: Option<string>)

  datatype ResultFile = ResultFile(operation: Operation, candidate: string, completedAt: Time)

  datatype Command =
    | Launchctl(service: string) | Curl(service: string) | BoundaryVerifier
    | GitBundleVerify | GitStatus | GitFetch(commit: string) | GitCheckout(commit: string) | GitRevParse
    | PromoteVerify(id: Id) | PromoteAuthorize(id: Id, action: Operation)
    | External(id: Id, operation: Operation)

  datatype Payload =
    | StatusReport(currentCommit: string, health: map<Command, bool>, ready: bool, pending: set<Operation>,
                   auditRecords: nat)
    | Verified
    | ReviewedReport(id: Id, operation: Operation, candidate: string, digests: Files)
    | CompletedReport(id: Id, operation: Operation, candidate: string, digests: Files, rollbackRequired: bool)
    | AuditReport(records: nat, last: Json.Value)
    | RevokedReport
    | ErrorReport(operation: Operation, at: Point)

  datatype Stage = ValidateOperator | VerifyInstalledArtifacts | LoadReviewedRequest | OperationCompleted | OperationDenied

  datatype RollbackStatus = NotRequested | Required | RolledBack

  /** The part of an audit record that describes one invocation. */
  datatype Report = Report(
    startedAt: Time, finishedAt: Time, operation: Operation, requestId: Option<Id>, candidate: Option<string>,
    digests: Files, stages: seq<Stage>, rollbackStatus: RollbackStatus, payload: Payload)

  /** Encodings and configured constants, such as the operator's name, that stay fixed over a run. */
  datatype Host = Host(
    parseTimestamp: Json.Value -> Timestamp,
    sha: Journal.Digest,
    describe: Report -> map<string, Json.Value>)
  {
    /** The keys of a report never collide with the three keys of the chain. */
    function Encode(report: Report): Journal.Entry {
      var fields := describe(report);
      map name | name in fields :: Journal.Named(name) := fields[name]
    }
  }

  /** Everything one invocation reads from outside the stores. */
  datatype Env = Env(
    fault: Point -> Fault,
    operatorMatches: bool,
    startedAt: Time, contextAt: Time, validatedAt: Time, reviewedAt: Time, loadedAt: Time, completedAt: Time,
    finishedAt: Time,
    allowlistMatches: bool, artifactsMatch: bool,
    currentCommit: Point -> Option<string>,
    boundarySucceeds: bool, boundarySummaryClean: bool,
    request: Option<Request>, requestDigest: Patterns.HexDigest,
    manifestDigest: string, manifestCandidate: Json.Value, bundleDigest: string,
    commandSucceeds: Point -> bool, rollbackRequired: bool, repositoryClean: bool, checkedOut: string,
    answers: Command -> bool,
    authorizationId: Json.Value,
    journalAccessible: bool, journalWrite: Journal.Write)
  {
    /** Pass the point if the world lets it pass and the program's own condition holds. */
    function Gate(at: Point, holds: bool): Outcome<()> {
      match fault(at)
      case Deny => Raised(at)
      case Crash => Crashed(at)
      case CrashAfter => if holds then Crashed(at) else Raised(at)
      case Pass => if holds then Returned(()) else Raised(at)
    }

    /** A durable write at this point took place, whether or not the process survived it. */
    predicate Applied(at: Point) { fault(at).Pass? || fault(at).CrashAfter? }
  }

  /** A material directory, with the clock reading its request was validated at. */
  datatype Material = Material(files: Files, validatedAt: Time)

  /** A consumed operation, with the clock reading it was loaded at. */
  datatype Consumed = Consumed(reviewed: Reviewed, loadedAt: Time)

  datatype State = State(
    material: map<Id, Material>,
    pending: map<Operation, Reviewed>,
    consumed: map<Id, Consumed>,
    results: map<Id, ResultFile>,
    sudoers: bool, revokedMarker: bool,
    journal: Journal.File,
    commands: seq<Command>)

  function Installed(): State {
    State(map[], map[], map[], map[], true, false, Journal.EMPTY, [])
  }

  function Need(holds: bool, at: Point): Outcome<()> { if holds then Returned(()) else Raised(at) }

  /** A timestamp that leaves the calendar ends the invocation: its error is no administration error. */
  function Moment(t: Timestamp, at: Point): Outcome<Time> {
    match t
    case Instant(time) => Returned(time)
    case NoTimestamp => Raised(at)
    case OutsideCalendar => Crashed(at)
  }

  function OperationNamed(name: Json.Value): Option<Operation> {
    if name == Json.Str("deploy-reviewed") then Some(DeployReviewed)
    else if name == Json.Str("cutover-reviewed") then Some(CutoverReviewed)
    else if name == Json.Str("rollback") then Some(Rollback)
    else None
  }

  function ExpectedKeys(op: Operation): set<RequestKey> {
    {SchemaVersionKey, RequestIdKey, OperationKey, CreatedAtKey, ExpiresAtKey, CandidateCommitKey, ReasonKey,
     ApprovalReferenceKey}
    + (if op.DeployReviewed? then {ManifestFileKey, ManifestSha256Key, BundleFileKey, BundleSha256Key}
       else if op.Rollback? then {ManifestFileKey, ManifestSha256Key, OperationIdKey}
       else {})
  }

  function Field(request: Request, key: RequestKey): Json.Value {
    if key in request then request[key] else Json.Null
  }

  /** A request created at most 5 minutes ahead and 24 hours ago, unexpired, and valid for at most 4 hours. */
  predicate InWindow(created: Time, now: Time) { now - 24 * HOUR <= created <= now + 5 * MINUTE }
  predicate Unexpired(created: Time, expires: Time, now: Time) { now < expires <= created + 4 * HOUR }

  function ValidateRequest(h: Host, request: Request, now: Time): Outcome<Valid> {
    var named := OperationNamed(Field(request, OperationKey));
    var _ :- Need(named.Some?, RequestOperation);
    var op := named.value;
    var _ :- Need(request.Keys == ExpectedKeys(op) && Json.EqualsInt(Field(request, SchemaVersionKey), 1), RequestFields);
    var id, candidate := Field(request, RequestIdKey), Field(request, CandidateCommitKey);
    var reason, reference := Field(request, ReasonKey), Field(request, ApprovalReferenceKey);
    var _ :- Need(id.Str? && Patterns.Identifier(id.s), RequestId);
    var _ :- Need(candidate.Str? && Patterns.Commit(candidate.s), RequestCandidate);
    var _ :- Need(reason.Str? && Patterns.Reason(reason.s), RequestReason);
    var _ :- Need(reference.Str? && Patterns.ApprovalReference(reference.s), RequestReference);
    var created :- Moment(h.parseTimestamp(Field(request, CreatedAtKey)), RequestCreated);
    var expires :- Moment(h.parseTimestamp(Field(request, ExpiresAtKey)), RequestExpires);
    var _ :- Need(InWindow(created, now), RequestCreationWindow);
    var _ :- Need(Unexpired(created, expires, now), RequestExpirationWindow);
    var manifest, manifestSha := Field(request, ManifestFileKey), Field(request, ManifestSha256Key);
    var _ :- Need(!op.CutoverReviewed? ==> manifest.Str? && Patterns.Filename(manifest.s, ".json")
              && manifestSha.Str? && Patterns.Sha256(manifestSha.s), RequestManifest);
    var bundle, bundleSha := Field(request, BundleFileKey), Field(request, BundleSha256Key);
    var _ :- Need(op.DeployReviewed? ==> bundle.Str? && Patterns.Filename(bundle.s, ".bundle")
              && bundleSha.Str? && Patterns.Sha256(bundleSha.s), RequestBundle);
    var operationId := Field(request, OperationIdKey);
    var _ :- Need(op.Rollback? ==> operationId.Str? && Patterns.Identifier(operationId.s), RequestOperationId);
    Returned(Valid(
      id.s, op, candidate.s, Field(request, CreatedAtKey), Field(request, ExpiresAtKey),
      if op.CutoverReviewed? then "" else manifestSha.s,
      if op.DeployReviewed? then bundleSha.s else "",
      if op.Rollback? then Some(operationId.s) else None))
  }

  /** The checks of a review before it touches any store. */
  function Admit(h: Host, s: State, e: Env): Outcome<Valid> {
    var _ :- e.Gate(SourceDirectory, true);
    var _ :- e.Gate(ReadRequest, e.request.Some?);
    var v :- ValidateRequest(h, e.request.value, e.validatedAt);
    var _ :- e.Gate(PendingSlot, v.operation !in s.pending);
    var _ :- e.Gate(IdConsumed, v.id !in s.consumed && v.id !in s.results);
    var _ :- e.Gate(MaterialExists, v.id !in s.material);
    Returned(v)
  }

  datatype Copied = Copied(files: Files, outcome: Outcome<()>)

  /** The outcome of one atomic file write inside the material directory. */
  function Put(e: Env, at: Point, digest: string): Copy { if e.Applied(at) then Stored(digest) else Missing }

  /** Copy the request and the reviewed material, checking each digest before the copy is written. */
  function CopyMaterial(e: Env, v: Valid): Copied {
    var files := NO_FILES.(request := Put(e, WriteRequest, e.requestDigest));
    var request := e.Gate(WriteRequest, true);
    if request.IsFailure() || v.operation.CutoverReviewed? then Copied(files, request) else
    var read := e.Gate(ReadManifest, true);
    if read.IsFailure() then Copied(files, read)
    else if e.manifestDigest != v.manifestSha then Copied(files, Raised(ManifestDigest))
    else CopyCandidate(e, v, files.(manifest := Put(e, WriteManifest, e.manifestDigest)))
  }

  function CopyCandidate(e: Env, v: Valid, files: Files): Copied {
    var manifest := e.Gate(WriteManifest, true);
    if manifest.IsFailure() then Copied(files, manifest) else
    var matches := e.Gate(ManifestCandidate, e.manifestCandidate == Json.Str(v.candidate));
    if matches.IsFailure() || v.operation.Rollback? then Copied(files, matches) else
    var read := e.Gate(ReadBundle, true);
    if read.IsFailure() then Copied(files, read)
    else if e.bundleDigest != v.bundleSha then Copied(files, Raised(BundleDigest))
    else Copied(files.(bundle := Put(e, WriteBundle, e.bundleDigest)), e.Gate(WriteBundle, true))
  }

  datatype Ran<+T> = Ran(commands: seq<Command>, outcome: Outcome<T>)

  /** Run one external command; it counts as run whatever becomes of it. */
  function RunOne(e: Env, at: Point, before: seq<Command>, command: Command): Ran<()> {
    Ran(before + [command], e.Gate(at, e.commandSucceeds(at)))
  }

  function PrepareRepository(e: Env, candidate: string): Ran<()> {
    var verify := RunOne(e, BundleVerify, [], GitBundleVerify);
    if verify.outcome.IsFailure() then verify else
    var status := RunOne(e, RepositoryStatus, verify.commands, GitStatus);
    if status.outcome.IsFailure() then status
    else if !e.repositoryClean then Ran(status.commands, Raised(RepositoryClean)) else
    var ready := CheckOut(e, candidate);
    Ran(status.commands + ready.commands, ready.outcome)
  }

  function CheckOut(e: Env, candidate: string): Ran<()> {
    var fetch := RunOne(e, Fetch, [], GitFetch(candidate));
    if fetch.outcome.IsFailure() then fetch else
    var checkout := RunOne(e, Checkout, fetch.commands, GitCheckout(candidate));
    if checkout.outcome.IsFailure() then checkout else
    var head := RunOne(e, RevParse, checkout.commands, GitRevParse);
    if head.outcome.IsFailure() then head
    else Ran(head.commands, Need(e.checkedOut == candidate, CheckedOutCandidate))
  }

  /** Prepare the candidate and obtain the authorization; a cutover needs none. */
  function Authorize(e: Env, v: Valid): Ran<Option<string>> {
    var prepared :=
      if v.operation.DeployReviewed? then PrepareRepository(e, v.candidate)
      else Ran([], e.Gate(ReviewCommit, e.currentCommit(ReviewCommit) == Some(v.candidate)));
    if prepared.outcome.IsFailure() then Ran(prepared.commands, prepared.outcome.PropagateFailure())
    else if v.operation.CutoverReviewed? then Ran(prepared.commands, Returned(None)) else
    var verified := RunOne(e, TrustedVerify, prepared.commands, PromoteVerify(v.id));
    if verified.outcome.IsFailure() then Ran(verified.commands, verified.outcome.PropagateFailure()) else
    var granted := RunOne(e, TrustedAuthorize, verified.commands, PromoteAuthorize(v.id, v.operation));
    if granted.outcome.IsFailure() then Ran(granted.commands, granted.outcome.PropagateFailure())
    else if e.authorizationId.Str? && Patterns.Identifier(e.authorizationId.s)
    then Ran(granted.commands, Returned(Some(e.authorizationId.s)))
    else Ran(granted.commands, Raised(AuthorizationId))
  }

  function ReviewedFrom(e: Env, v: Valid, digests: Files, authorization: Option<string>): Reviewed {
    Reviewed(v.id, v.operation, v.candidate, v.createdAt, v.expiresAt, e.reviewedAt, digests, v.id,
             authorization, v.operationId)
  }

  function ReviewStep(h: Host, s: State, e: Env): (State, Outcome<Payload>) {
    var admitted := Admit(h, s, e);
    if admitted.IsFailure() then (s, admitted.PropagateFailure()) else ReviewAdmitted(s, e, admitted.value)
  }

  function Filled(s: State, e: Env, v: Valid, files: Files): State {
    s.(material := s.material[v.id := Material(files, e.validatedAt)])
  }

  function WithCommands(s: State, more: seq<Command>): State { s.(commands := s.commands + more) }

  function WithPending(s: State, r: Reviewed): State { s.(pending := s.pending[r.operation := r]) }

  /** From here on a failure keeps the copied evidence, and never leaves a pending operation behind. */
  function ReviewAdmitted(s: State, e: Env, v: Valid): (State, Outcome<Payload>) {
    var directory := e.Gate(MakeDirectory, true);
    if directory.IsFailure()
    then (if e.Applied(MakeDirectory) then Filled(s, e, v, NO_FILES) else s, directory.PropagateFailure()) else
    var copied := CopyMaterial(e, v);
    var filled := Filled(s, e, v, copied.files);
    if copied.outcome.IsFailure() then (filled, copied.outcome.PropagateFailure()) else
    var authorized := Authorize(e, v);
    var ran := WithCommands(filled, authorized.commands);
    if authorized.outcome.IsFailure() then (ran, authorized.outcome.PropagateFailure()) else
    var reviewed := ReviewedFrom(e, v, copied.files, authorized.outcome.value);
    var written := e.Gate(WritePending, true);
    (if e.Applied(WritePending) then WithPending(ran, reviewed) else ran,
     if written.IsFailure() then written.PropagateFailure()
     else Returned(ReviewedReport(v.id, v.operation, v.candidate, copied.files)))
  }

  /** Read and recheck the pending operation; the artifact digests are recomputed only before execution. */
  function LoadPending(h: Host, s: State, op: Operation, e: Env, file: Point, now: Time, verifyArtifacts: bool)
    : Outcome<Reviewed>
  {
    var _ :- e.Gate(file, op in s.pending);
    var r := s.pending[op];
    var _ :- Need(r.operation == op && Patterns.Identifier(r.id) && Patterns.Commit(r.candidate), PendingSchema);
    var expires :- Moment(h.parseTimestamp(r.expiresAt), PendingExpiry);
    var _ :- Need(now < expires, PendingExpiry);
    var _ :- Need(r.materialRoot == r.id, PendingMaterial);
    var _ :- Need(!r.digests.Empty() && r.digests.Hex(), PendingDigests);
    var _ :- if verifyArtifacts
       then e.Gate(ArtifactsIntact, r.id in s.material && r.digests.FoundIn(s.material[r.id].files))
       else Returned(());
    Returned(r)
  }

  function VerifyBoundary(e: Env): Ran<()> {
    var commit := e.Gate(BoundaryCommit, e.currentCommit(BoundaryCommit).Some?);
    if commit.IsFailure() then Ran([], commit) else
    var run := e.Gate(BoundaryRun, e.boundarySucceeds);
    Ran([BoundaryVerifier], if run.IsFailure() then run else Need(e.boundarySummaryClean, BoundarySummary))
  }

  predicate IdentifiersUsable(r: Reviewed, op: Operation) {
    && (!op.CutoverReviewed? ==> r.authorizationId.Some? && Patterns.Identifier(r.authorizationId.value))
    && (op.Rollback? ==> r.operationId.Some? && Patterns.Identifier(r.operationId.value))
  }

  /** Everything `execute_reviewed` does before the pending file is moved. */
  function Prepare(h: Host, s: State, op: Operation, e: Env): Ran<Reviewed> {
    var loaded := LoadPending(h, s, op, e, PendingFile, e.loadedAt, true);
    if loaded.IsFailure() then Ran([], loaded) else
    var r := loaded.value;
    var current := if op.DeployReviewed? then Returned(())
      else e.Gate(ExecuteCommit, e.currentCommit(ExecuteCommit).Some?);
    if current.IsFailure() then Ran([], current.PropagateFailure())
    else if !op.DeployReviewed? && e.currentCommit(ExecuteCommit) != Some(r.candidate) then Ran([], Raised(ExecuteDrift))
    else
      var boundary := VerifyBoundary(e);
      if boundary.outcome.IsFailure() then Ran(boundary.commands, boundary.outcome.PropagateFailure())
      else if r.id in s.consumed then Ran(boundary.commands, Raised(AlreadyConsumed))
      else Ran(boundary.commands, Returned(r))
  }

  function ExecuteStep(h: Host, s: State, op: Operation, e: Env): (State, Outcome<Payload>) {
    var prepared := Prepare(h, s, op, e);
    var checked := WithCommands(s, prepared.commands);
    if prepared.outcome.IsFailure() then (checked, prepared.outcome.PropagateFailure())
    else ExecutePrepared(checked, op, e, prepared.outcome.value)
  }

  function Moved(s: State, op: Operation, e: Env, r: Reviewed): State {
    s.(pending := s.pending - {op}, consumed := s.consumed[r.id := Consumed(r, e.loadedAt)])
  }

  function Recorded(s: State, op: Operation, e: Env, r: Reviewed): State {
    s.(results := s.results[r.id := ResultFile(op, r.candidate, e.completedAt)])
  }

  /** The payload of a completed operation; a cutover's command reports nothing about a rollback. */
  function Completed(op: Operation, e: Env, r: Reviewed): Payload {
    CompletedReport(r.id, op, r.candidate, r.digests, !op.CutoverReviewed? && e.rollbackRequired)
  }

  /** The pending file is moved before the external command starts, so that nothing can start it again. */
  function ExecutePrepared(s: State, op: Operation, e: Env, r: Reviewed): (State, Outcome<Payload>) {
    var moved := Moved(s, op, e, r);
    var renamed := e.Gate(ConsumeRename, true);
    if renamed.IsFailure() then (if e.Applied(ConsumeRename) then moved else s, renamed.PropagateFailure())
    else if !IdentifiersUsable(r, op) then (moved, Raised(ExecuteIdentifiers)) else
    var ran := WithCommands(moved, [External(r.id, op)]);
    var command := e.Gate(ExternalCommand, e.commandSucceeds(ExternalCommand));
    if command.IsFailure() then (ran, command.PropagateFailure()) else
    var written := e.Gate(WriteResult, true);
    (if e.Applied(WriteResult) then Recorded(ran, op, e, r) else ran,
     if written.IsFailure() then written.PropagateFailure()
     else Returned(Completed(op, e, r)))
  }

  /** The policy file goes first, the marker second. */
  function RevokeStep(s: State, e: Env): (State, Outcome<Payload>) {
    var removed := if e.Applied(RemoveSudoers) then s.(sudoers := false) else s;
    var unlink := e.Gate(RemoveSudoers, true);
    if unlink.IsFailure() then (removed, unlink.PropagateFailure()) else
    var marker := e.Gate(WriteMarker, true);
    (if e.Applied(WriteMarker) then removed.(revokedMarker := true) else removed,
     if marker.IsFailure() then marker.PropagateFailure() else Returned(RevokedReport))
  }

  function JournalReadable(h: Host, s: State, e: Env): bool {
    e.journalAccessible && Journal.Accepted(h.sha, s.journal.lines)
  }

  const PROBES := [Launchctl("home_mcp"), Launchctl("tunnel"), Curl("home_mcp"), Curl("tunnel")]

  /** What each of the probes found. */
  function Health(e: Env, probes: seq<Command>): map<Command, bool> { map c | c in probes :: e.answers(c) }

  function StatusStep(h: Host, s: State, e: Env): (State, Outcome<Payload>) {
    var commit := e.Gate(StatusCommit, e.currentCommit(StatusCommit).Some?);
    if commit.IsFailure() then (s, commit.PropagateFailure()) else
    var probed := WithCommands(s, PROBES);
    var audit := e.Gate(StatusAudit, JournalReadable(h, s, e));
    (probed, if audit.IsFailure() then audit.PropagateFailure()
             else Returned(StatusReport(e.currentCommit(StatusCommit).value, Health(e, PROBES),
                                        forall c | c in PROBES :: e.answers(c), s.pending.Keys, |s.journal.lines|)))
  }

  function VerifyStep(s: State, e: Env): (State, Outcome<Payload>) {
    var boundary := VerifyBoundary(e);
    (WithCommands(s, boundary.commands),
     if boundary.outcome.IsFailure() then boundary.outcome.PropagateFailure() else Returned(Verified))
  }

  function AuditRecords(h: Host, s: State, e: Env): Outcome<Payload> {
    var _ :- e.Gate(AuditRead, JournalReadable(h, s, e));
    Returned(AuditReport(|s.journal.lines|, if s.journal.lines == [] then Json.Null else Journal.Link(s.journal.lines)))
  }

  /** The installed files still match their digests; the sudoers policy is one of them. */
  function VerifyInstalled(s: State, e: Env): Outcome<()> {
    var _ :- e.Gate(InstalledDirectories, true);
    var _ :- Need(e.allowlistMatches, InstalledAllowlist);
    e.Gate(InstalledArtifacts, s.sudoers && e.artifactsMatch)
  }

  function Operate(h: Host, s: State, op: Operation, e: Env): (State, Outcome<Payload>) {
    match op
    case Status => StatusStep(h, s, e)
    case Verify => VerifyStep(s, e)
    case Review => ReviewStep(h, s, e)
    case AuditVerify => (s, AuditRecords(h, s, e))
    case Revoke => RevokeStep(s, e)
    case _ => ExecuteStep(h, s, op, e)
  }

  function Dispatch(h: Host, s: State, op: Operation, e: Env): (State, Outcome<Payload>) {
    var installed := VerifyInstalled(s, e);
    if installed.IsFailure() then (s, installed.PropagateFailure()) else Operate(h, s, op, e)
  }

  /** The pending request an invocation names in its audit record when the operation itself is denied. */
  function Context(h: Host, s: State, op: Operation, e: Env): Outcome<Option<Reviewed>> {
    if !IsReviewed(op) then Returned(None) else
    match LoadPending(h, s, op, e, ContextLoad, e.contextAt, false)
    case Returned(r) => Returned(Some(r))
    case Raised(_) => Returned(None)
    case Crashed(at) => Crashed(at)
  }

  function PayloadOf(op: Operation, outcome: Outcome<Payload>): Payload
    requires !outcome.Crashed?
  {
    if outcome.Returned? then outcome.value else ErrorReport(op, outcome.at)
  }

  function ReportOf(op: Operation, e: Env, context: Option<Reviewed>, outcome: Outcome<Payload>): Report
    requires !outcome.Crashed?
  {
    var payload := PayloadOf(op, outcome);
    var stages := [ValidateOperator, VerifyInstalledArtifacts]
      + (if IsReviewed(op) then [LoadReviewedRequest] else [])
      + [if outcome.Returned? then OperationCompleted else OperationDenied];
    var digests := if context.Some? then context.value.digests else NO_FILES;
    var rollback :=
      if payload.CompletedReport? && payload.rollbackRequired then Required
      else if payload.CompletedReport? && op.Rollback? then RolledBack else NotRequested;
    match payload
    case ReviewedReport(id, _, candidate, d) =>
      Report(e.startedAt, e.finishedAt, op, Some(id), Some(candidate), d, stages, rollback, payload)
    case CompletedReport(id, _, candidate, d, _) =>
      Report(e.startedAt, e.finishedAt, op, Some(id), Some(candidate), d, stages, rollback, payload)
    case StatusReport(commit, _, _, _, _) =>
      Report(e.startedAt, e.finishedAt, op, None, Some(commit), digests, stages, rollback, payload)
    case ErrorReport(_, _) =>
      Report(e.startedAt, e.finishedAt, op, if context.Some? then Some(context.value.id) else None,
             if context.Some? then Some(context.value.candidate) else None, digests, stages, rollback, payload)
    case _ => Report(e.startedAt, e.finishedAt, op, None, None, digests, stages, rollback, payload)
  }

  /** Append the record of this invocation; the payload is handed back only if the append returned. */
  function Recording(h: Host, journal: Journal.File, op: Operation, e: Env, context: Option<Reviewed>,
                     outcome: Outcome<Payload>)
    : (Journal.File, Outcome<Payload>)
    requires !outcome.Crashed?
  {
    if !e.journalAccessible || !Journal.Accepted(h.sha, journal.lines) then (journal, Raised(JournalAppend)) else
    var record := Journal.NextRecord(h.sha, journal.lines, h.Encode(ReportOf(op, e, context, outcome)));
    (Journal.Written(journal, record, e.journalWrite.Reached()),
     match e.journalWrite
     case Complete => Returned(PayloadOf(op, outcome))
     case Stopped(_, raised) => if raised then Raised(JournalAppend) else Crashed(JournalAppend))
  }

  function Conclude(h: Host, s: State, op: Operation, e: Env, context: Option<Reviewed>, outcome: Outcome<Payload>)
    : (State, Outcome<Payload>)
    requires !outcome.Crashed?
  {
    var (journal, final) := Recording(h, s.journal, op, e, context, outcome);
    (s.(journal := journal), final)
  }

  /** One invocation: the new stores, and the payload or the way it ended. */
  function Invoke(h: Host, s: State, op: Operation, e: Env): (State, Outcome<Payload>) {
    var operator := e.Gate(Operator, e.operatorMatches);
    if operator.IsFailure() then (s, operator.PropagateFailure()) else
    var lock := e.Gate(Lock, true);
    if lock.IsFailure() then (s, lock.PropagateFailure()) else
    var context := Context(h, s, op, e);
    if context.IsFailure() then (s, context.PropagateFailure()) else
    var (after, outcome) := Dispatch(h, s, op, e);
    if outcome.Crashed? then (after, outcome) else Conclude(h, after, op, e, context.value, outcome)
  }
}
