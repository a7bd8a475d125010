/** The promotion controller: authorized plans, execution outcomes, rollback plans and their tests, all with audit records. */
module PromotionController {
  import opened Prelude
  import opened Sorting
  import opened Text
  import Gate = DeploymentGate
  import Patterns

  type Digest = Patterns.HexDigest

  datatype Action = Promote | Rollback | RollbackTest

  datatype Status = Ready | Blocked | PendingTest | Completed | Stopped | NotExecuted

  datatype Reason = Reason(code: string, field: string, path: Option<string>)

  datatype ManifestArtifact = ManifestArtifact(path: string, resolved: string, contentSha: string, size: int)

  datatype Verification = Verification(
    repository: string, branch: string, commit: string, checkedOut: string, manifestCommit: string, clean: bool,
    commitVerified: bool, manifestSha: string, artifacts: seq<ManifestArtifact>, verifiedBy: string, verifiedAt: string)

  datatype Authorization = Authorization(
    id: string, actor: string, human: bool, approve: bool, action: Action, commit: string, previousBuild: string,
    manifestSha: string, authorizedAt: string, expiresAt: string, reason: string, reference: string)

  datatype Evidence = Evidence(
    name: string, passed: bool, checkedAt: string, reference: string, build: string, manifestSha: string,
    details: string)

  datatype RollbackEvidence = RollbackEvidence(
    rollbackReference: string, targetBuild: string, resolved: bool, available: bool, compatible: bool, restored: bool,
    passed: bool, testedAt: string, reference: string)

  datatype AuditCheck = AuditCheck(name: string, passed: bool, reference: string, details: string)

  /** The content of an audit record, apart from what is derived from it. */
  datatype AuditBase = AuditBase(
    parent: Option<string>, action: Action, status: Status, actor: string, authorizationId: string, verifier: string,
    verifiedAt: string, executor: string, repository: string, branch: string, candidateBuild: string,
    previousBuild: string, manifestSha: string, artifacts: seq<ManifestArtifact>, gateSha: string,
    checks: seq<AuditCheck>, requestedAt: string, recordedAt: string, migrationVersion: string, assumptions: string,
    rollbackReference: string, restart: Option<Evidence>, smoke: seq<Evidence>, externalChanges: bool,
    controllerChanges: bool)

  datatype AuditMetadata = AuditMetadata(
    operationId: string, parent: Option<string>, action: Action, status: Status, actor: string, authorizationId: string,
    verifier: string, verifiedAt: string, executor: string, repository: string, branch: string, candidateBuild: string,
    previousBuild: string, manifestSha: string, artifacts: seq<ManifestArtifact>, gateSha: string,
    checks: seq<AuditCheck>, requestedAt: string, recordedAt: string, migrationVersion: string, assumptions: string,
    rollbackReference: string, restart: Option<Evidence>, smoke: seq<Evidence>, externalChanges: bool,
    controllerChanges: bool, recordSha: string)

  /** What is ever hashed, before its canonical encoding. */
  datatype Payload =
    | ManifestPayload(artifacts: seq<ManifestArtifact>)
    | GatePayload(decision: Gate.Decision)
    | BasePayload(base: AuditBase)
    | RecordPayload(operationId: string, base: AuditBase)

  /** Case folding, timestamp reading (in any unit) and hashing, about which nothing else is assumed. */
  datatype World = World(fold: Gate.Fold, time: string -> Option<int>, sha: Payload -> Digest)

  function Why(fails: bool, code: string, field: string): seq<Reason> {
    if fails then [Reason(code, field, None)] else []
  }

  function Who(w: World, name: string): string { Gate.Identity(w.fold, name) }

  // ---- identity of the candidate

  function IdentityReasons(w: World, c: Gate.Candidate, v: Verification): seq<Reason> {
    var commit, verifier := w.fold(c.commit), Who(w, v.verifiedBy);
    Why(!Patterns.Commit(commit), "nonimmutable_candidate_commit", "candidate_commit")
    + Why(v.repository != c.repository, "candidate_identity_mismatch", "verification.repository")
    + Why(v.branch != c.branch, "candidate_identity_mismatch", "verification.branch")
    + Why(w.fold(v.commit) != commit, "candidate_identity_mismatch", "verification.candidate_commit")
    + Why(w.fold(v.checkedOut) != commit, "candidate_identity_mismatch", "verification.checked_out_commit")
    + Why(w.fold(v.manifestCommit) != commit, "candidate_identity_mismatch", "verification.manifest_commit")
    + Why(!v.commitVerified, "unverified_commit_object", "verification.commit_object_verified")
    + Why(!v.clean, "dirty_worktree", "verification.worktree_clean")
    + Why(verifier == "", "missing_verifier_identity", "verification.verified_by")
    + Why(verifier == Who(w, c.builder) || verifier == Who(w, c.production), "nonindependent_verifier",
          "verification.verified_by")
    + Why(w.time(v.verifiedAt).None?, "invalid_verified_at", "verification.verified_at")
  }

  predicate Unclean(reasons: seq<Reason>) {
    exists r :: r in reasons
      && r.code in ["candidate_identity_mismatch", "unverified_commit_object", "dirty_worktree",
                    "nonimmutable_candidate_commit"]
  }

  function IdentityChecks(w: World, c: Gate.Candidate, v: Verification, reasons: seq<Reason>): seq<AuditCheck> {
    [AuditCheck("immutable_commit_identity", Patterns.Commit(w.fold(c.commit)), v.verifiedBy, ""),
     AuditCheck("clean_committed_candidate", !Unclean(reasons), v.verifiedBy, "")]
  }

  // ---- manifest

  function Rules(): Gate.DenyRules {
    Gate.DenyRules(Gate.SharedControls() + ["src/local_agent_lab/promotion_controller.py"],
                   Gate.SharedSecrets() + ["token"], [".git", ".pytest_cache", ".venv", "__pycache__"])
  }

  function ArtifactDenial(fold: Gate.Fold, path: string, resolved: string): Option<string> {
    if path != resolved then Some("artifact_resolution_mismatch")
    else if Gate.PathError(path).Some? then Some("invalid_artifact_path")
    else Gate.Denial(fold, path, Rules())
  }

  function ArtifactReasons(w: World, a: ManifestArtifact): seq<Reason> {
    var denial := ArtifactDenial(w.fold, a.path, a.resolved);
    (if denial.Some? then [Reason(denial.value, "verification.artifacts", Some(a.path))] else [])
    + (if Patterns.Sha256(w.fold(a.contentSha)) then []
       else [Reason("invalid_artifact_digest", "verification.artifacts.content_sha256", Some(a.path))])
    + if a.size < 0 then [Reason("invalid_artifact_size", "verification.artifacts.size_bytes", Some(a.path))] else []
  }

  function AllArtifactReasons(w: World, artifacts: seq<ManifestArtifact>): seq<Reason> {
    if artifacts == [] then []
    else AllArtifactReasons(w, artifacts[..|artifacts| - 1]) + ArtifactReasons(w, artifacts[|artifacts| - 1])
  }

  predicate PathLe(a: ManifestArtifact, b: ManifestArtifact) { StringLe(a.path, b.path) }

  function ManifestSha(w: World, artifacts: seq<ManifestArtifact>): Digest {
    w.sha(ManifestPayload(Sort(PathLe, artifacts)))
  }

  predicate ManifestMatches(w: World, v: Verification) {
    Patterns.Sha256(w.fold(v.manifestSha)) && ManifestSha(w, v.artifacts) == w.fold(v.manifestSha)
  }

  predicate UniquePaths(artifacts: seq<ManifestArtifact>) {
    |artifacts| == |set a | a in artifacts :: a.path|
  }

  predicate InventoryMatches(c: Gate.Candidate, d: Gate.Decision, v: Verification) {
    && (set a | a in c.artifacts :: (a.path, if a.resolved.Some? then a.resolved.value else ""))
       == (set a | a in v.artifacts :: (a.path, a.resolved))
    && Gate.ApprovedPaths(d.approved) == set a | a in v.artifacts :: a.path
  }

  function ManifestReasons(w: World, c: Gate.Candidate, d: Gate.Decision, v: Verification): seq<Reason> {
    Why(!UniquePaths(v.artifacts), "duplicate_manifest_path", "verification.artifacts")
    + AllArtifactReasons(w, v.artifacts)
    + Why(!ManifestMatches(w, v), "manifest_digest_mismatch", "verification.manifest_sha256")
    + Why(!InventoryMatches(c, d, v), "manifest_inventory_mismatch", "verification.artifacts")
  }

  function ManifestChecks(w: World, c: Gate.Candidate, d: Gate.Decision, v: Verification): seq<AuditCheck> {
    [AuditCheck("manifest_digest", ManifestMatches(w, v), "sha256:" + ManifestSha(w, v.artifacts), ""),
     AuditCheck("manifest_inventory", InventoryMatches(c, d, v), v.verifiedBy, "")]
  }

  method VerifyManifest(w: World, c: Gate.Candidate, d: Gate.Decision, v: Verification, reasons: seq<Reason>,
                        checks: seq<AuditCheck>) returns (r: seq<Reason>, k: seq<AuditCheck>)
    ensures r == reasons + ManifestReasons(w, c, d, v) && k == checks + ManifestChecks(w, c, d, v)
  {
    hide UniquePaths, ArtifactReasons, ManifestMatches, InventoryMatches, Why, ManifestSha;
    r, k := reasons + Why(!UniquePaths(v.artifacts), "duplicate_manifest_path", "verification.artifacts"), checks;
    ghost var before := r;
    assert v.artifacts[..0] == [];
    for i := 0 to |v.artifacts|
      invariant r == before + AllArtifactReasons(w, v.artifacts[..i])
    {
      assert v.artifacts[..i + 1][..i] == v.artifacts[..i];
      r := r + ArtifactReasons(w, v.artifacts[i]);
    }
    assert v.artifacts[..|v.artifacts|] == v.artifacts;
    var matches, listed := ManifestMatches(w, v), InventoryMatches(c, d, v);
    k := k + [AuditCheck("manifest_digest", matches, "sha256:" + ManifestSha(w, v.artifacts), "")];
    r := r + Why(!matches, "manifest_digest_mismatch", "verification.manifest_sha256");
    k := k + [AuditCheck("manifest_inventory", listed, v.verifiedBy, "")];
    r := r + Why(!listed, "manifest_inventory_mismatch", "verification.artifacts");
  }

  // ---- authorization

  predicate Opaque(value: string) {
    Strip(value) != "" && !Gate.ContainsAny(value, [";", "&&", "||", "|", ">", "<", "`", "$(", "\n", "\r"])
  }

  function PreviousBuild(rollback: Option<Gate.Rollback>): string {
    if rollback.Some? then rollback.value.previousBuild else ""
  }

  function TimeReasons(w: World, a: Authorization, prepared: Option<int>): seq<Reason> {
    var granted, expires := w.time(a.authorizedAt), w.time(a.expiresAt);
    if granted.None? || expires.None? then Why(true, "invalid_authorization_time", "authorization")
    else if granted.value > expires.value
      then Why(true, "invalid_authorization_window", "authorization.expires_at")
    else Why(prepared.Some? && !(granted.value <= prepared.value <= expires.value), "authorization_not_current",
             "authorization.expires_at")
  }

  function AuthorizationReasons(w: World, c: Gate.Candidate, manifestSha: string, given: Option<Authorization>,
                                action: Action, prepared: Option<int>): seq<Reason> {
    if given.None? then Why(true, "human_authorization_required", "authorization")
    else
      var a := given.value;
      Why(Strip(a.id) == "", "incomplete_authorization", "authorization.authorization_id")
      + Why(Strip(a.actor) == "", "incomplete_authorization", "authorization.actor")
      + Why(Strip(a.reason) == "", "incomplete_authorization", "authorization.reason")
      + Why(Strip(a.reference) == "", "incomplete_authorization", "authorization.approval_reference")
      + Why(!a.human || !a.approve, "human_approval_missing", "authorization")
      + Why(a.action != action, "authorization_action_mismatch", "authorization.action")
      + Why(w.fold(a.commit) != w.fold(c.commit), "authorization_scope_mismatch", "authorization.candidate_commit")
      + Why(a.previousBuild != PreviousBuild(c.rollback), "authorization_scope_mismatch", "authorization.previous_build")
      + Why(w.fold(a.manifestSha) != w.fold(manifestSha), "authorization_scope_mismatch",
            "authorization.manifest_sha256")
      + Why(Who(w, a.actor) == Who(w, c.builder) || Who(w, a.actor) == Who(w, c.production),
            "unauthorized_actor_identity", "authorization.actor")
      + TimeReasons(w, a, prepared)
      + Why(!Opaque(a.reference), "unsafe_approval_reference", "authorization.approval_reference")
  }

  function AuthorizationCheck(given: Option<Authorization>, valid: bool): AuditCheck {
    if given.None? then AuditCheck("human_authorization", false, "missing", "")
    else AuditCheck("human_authorization", valid, given.value.reference, given.value.reason)
  }

  // ---- evidence

  predicate EvidenceValid(w: World, e: Evidence, build: string, manifestSha: string, notAfter: Option<int>) {
    && Strip(e.name) != "" && Strip(e.reference) != "" && w.time(e.checkedAt).Some?
    && (notAfter.Some? ==> w.time(e.checkedAt).value <= notAfter.value)
    && w.fold(e.build) == w.fold(build) && w.fold(e.manifestSha) == w.fold(manifestSha)
  }

  function Label(prefix: string, e: Evidence, passed: bool): AuditCheck {
    AuditCheck(prefix + (if e.name == "" then "unnamed" else e.name), passed, e.reference, e.details)
  }

  /** What the results are checked against. */
  datatype Expected = Expected(build: string, manifestSha: string, notAfter: Option<int>)

  predicate Repeats(results: seq<Evidence>, name: string) { exists e :: e in results && e.name == name }

  predicate SmokePasses(w: World, x: Expected, before: seq<Evidence>, e: Evidence) {
    EvidenceValid(w, e, x.build, x.manifestSha, x.notAfter) && !Repeats(before, e.name) && e.passed
  }

  function SmokeReasons(w: World, x: Expected, results: seq<Evidence>): seq<Reason> {
    if results == [] then []
    else
      var n := |results| - 1;
      var e := results[n];
      SmokeReasons(w, x, results[..n])
      + (if Repeats(results[..n], e.name)
         then [Reason("duplicate_smoke_name", "preflight_smoke_results", Some(e.name))] else [])
      + if SmokePasses(w, x, results[..n], e) then []
        else [Reason("preflight_smoke_failed", "preflight_smoke_results", Some(e.name))]
  }

  function SmokeChecks(w: World, x: Expected, results: seq<Evidence>): seq<AuditCheck> {
    if results == [] then []
    else
      var n := |results| - 1;
      SmokeChecks(w, x, results[..n])
      + [Label("preflight_smoke:", results[n], SmokePasses(w, x, results[..n], results[n]))]
  }

  function PreflightReasons(w: World, x: Expected, results: seq<Evidence>): seq<Reason> {
    Why(results == [], "missing_preflight_smoke", "preflight_smoke_results") + SmokeReasons(w, x, results)
  }

  method VerifySmokeResults(w: World, x: Expected, results: seq<Evidence>, reasons: seq<Reason>, checks: seq<AuditCheck>)
    returns (r: seq<Reason>, k: seq<AuditCheck>)
    ensures r == reasons + PreflightReasons(w, x, results) && k == checks + SmokeChecks(w, x, results)
  {
    hide EvidenceValid, Why, Label;
    r, k := reasons, checks;
    if results == [] {
      r := r + Why(true, "missing_preflight_smoke", "preflight_smoke_results");
      return;
    }
    NoWhy("missing_preflight_smoke", "preflight_smoke_results");
    var names: set<string> := {};
    assert results[..0] == [];
    for i := 0 to |results|
      invariant names == Names(results[..i])
      invariant r == reasons + SmokeReasons(w, x, results[..i]) && k == checks + SmokeChecks(w, x, results[..i])
    {
      var e := results[i];
      SmokeStep(w, x, results, i);
      NamesStep(results, i);
      hide SmokeReasons, SmokeChecks, Names, Repeats;
      var valid := EvidenceValid(w, e, x.build, x.manifestSha, x.notAfter);
      if e.name in names {
        valid := false;
        r := r + [Reason("duplicate_smoke_name", "preflight_smoke_results", Some(e.name))];
      }
      names := names + {e.name};
      assert (valid && e.passed) == SmokePasses(w, x, results[..i], e);
      k := k + [Label("preflight_smoke:", e, valid && e.passed)];
      if !(valid && e.passed) {
        r := r + [Reason("preflight_smoke_failed", "preflight_smoke_results", Some(e.name))];
      }
    }
    assert results[..|results|] == results;
  }

  function Names(results: seq<Evidence>): set<string> { set e | e in results :: e.name }

  lemma NamesStep(results: seq<Evidence>, i: nat)
    requires i < |results|
    ensures Names(results[..i + 1]) == Names(results[..i]) + {results[i].name}
    ensures results[i].name in Names(results[..i]) <==> Repeats(results[..i], results[i].name)
  {
    assert results[..i + 1] == results[..i] + [results[i]];
    assert forall e :: e in results[..i + 1] <==> e in results[..i] || e == results[i];
  }

  lemma NoWhy(code: string, field: string)
    ensures Why(false, code, field) == []
  {
  }

  lemma SmokeStep(w: World, x: Expected, results: seq<Evidence>, i: nat)
    requires i < |results|
    ensures
      var e, before := results[i], results[..i];
      && SmokeChecks(w, x, results[..i + 1])
         == SmokeChecks(w, x, before) + [Label("preflight_smoke:", e, SmokePasses(w, x, before, e))]
      && SmokeReasons(w, x, results[..i + 1]) == SmokeReasons(w, x, before)
         + (if Repeats(before, e.name)
            then [Reason("duplicate_smoke_name", "preflight_smoke_results", Some(e.name))] else [])
         + if SmokePasses(w, x, before, e) then []
           else [Reason("preflight_smoke_failed", "preflight_smoke_results", Some(e.name))]
  {
    hide SmokePasses, Repeats;
    assert results[..i + 1][..i] == results[..i];
  }

  // ---- rollback readiness

  function RollbackTestReasons(w: World, reference: string, target: string, e: RollbackEvidence, notAfter: Option<int>)
    : seq<Reason>
  {
    var tested := w.time(e.testedAt);
    Why(e.rollbackReference != reference || e.targetBuild != target, "rollback_test_scope_mismatch", "rollback_test")
    + Why(!(e.resolved && e.available && e.compatible && e.restored && e.passed), "rollback_test_failed",
          "rollback_test")
    + (if tested.None? || Strip(e.reference) == "" then Why(true, "invalid_rollback_test_evidence", "rollback_test")
       else Why(notAfter.Some? && tested.value > notAfter.value, "future_rollback_test_evidence",
                "rollback_test.tested_at"))
  }

  function ReadinessCheck(target: string, e: RollbackEvidence, valid: bool): AuditCheck {
    AuditCheck("rollback_readiness", valid, e.reference, "target=" + target)
  }

  function RollbackReadiness(w: World, rollback: Option<Gate.Rollback>, e: RollbackEvidence, notAfter: Option<int>)
    : (seq<Reason>, seq<AuditCheck>)
  {
    if rollback.None? then (Why(true, "missing_rollback_metadata", "rollback"), [])
    else
      var r := rollback.value;
      var reasons := RollbackTestReasons(w, r.reference, r.previousBuild, e, notAfter);
      (reasons, [ReadinessCheck(r.previousBuild, e, reasons == [])])
  }

  // ---- audit records

  function ActionName(a: Action): string {
    match a
    case Promote => "promote"
    case Rollback => "rollback"
    case RollbackTest => "rollback_test"
  }

  function OperationId(action: Action, digest: Digest): string { ActionName(action) + "-" + digest[..20] }

  /** The recorded fields of an audit record, without its id and its digest. */
  function Recorded(a: AuditMetadata): AuditBase {
    AuditBase(a.parent, a.action, a.status, a.actor, a.authorizationId, a.verifier, a.verifiedAt, a.executor,
              a.repository, a.branch, a.candidateBuild, a.previousBuild, a.manifestSha, a.artifacts, a.gateSha,
              a.checks, a.requestedAt, a.recordedAt, a.migrationVersion, a.assumptions, a.rollbackReference,
              a.restart, a.smoke, a.externalChanges, a.controllerChanges)
  }

  predicate AuditValid(w: World, a: AuditMetadata) {
    Patterns.Sha256(a.recordSha) && w.sha(RecordPayload(a.operationId, Recorded(a))) == a.recordSha
  }

  /** What a stage adds to an audit record. */
  datatype Stage = Stage(
    action: Action, status: Status, checks: seq<AuditCheck>, recordedAt: string, restart: Option<Evidence>,
    smoke: seq<Evidence>, externalChanges: bool, parent: Option<string>)

  function NoRollback(): Gate.Rollback { Gate.Rollback("", "", "", "", "") }

  function RollbackOf(c: Gate.Candidate): Gate.Rollback { if c.rollback.Some? then c.rollback.value else NoRollback() }

  function ActorOf(a: Option<Authorization>): string { if a.Some? then a.value.actor else "" }

  function AuthorizationId(a: Option<Authorization>): string { if a.Some? then a.value.id else "" }

  function RequestedAt(a: Option<Authorization>): string { if a.Some? then a.value.authorizedAt else "" }

  function BuiltBase(w: World, s: Stage, c: Gate.Candidate, v: Verification, a: Option<Authorization>, d: Gate.Decision)
    : AuditBase
  {
    AuditBase(s.parent, s.action, s.status, ActorOf(a), AuthorizationId(a), v.verifiedBy, v.verifiedAt, "",
              c.repository, c.branch, c.commit, RollbackOf(c).previousBuild, v.manifestSha, v.artifacts,
              w.sha(GatePayload(d)), s.checks, RequestedAt(a), s.recordedAt, RollbackOf(c).migrationVersion,
              RollbackOf(c).assumptions, RollbackOf(c).reference, s.restart, s.smoke, s.externalChanges, false)
  }

  function BuildAudit(w: World, s: Stage, c: Gate.Candidate, v: Verification, a: Option<Authorization>,
                      d: Gate.Decision): AuditMetadata {
    var base, rollback := BuiltBase(w, s, c, v, a, d), RollbackOf(c);
    var operationId := OperationId(s.action, w.sha(BasePayload(base)));
    AuditMetadata(operationId, s.parent, s.action, s.status, base.actor, base.authorizationId, v.verifiedBy,
                  v.verifiedAt, "", c.repository, c.branch, c.commit, rollback.previousBuild, v.manifestSha,
                  v.artifacts, base.gateSha, s.checks, base.requestedAt, s.recordedAt, rollback.migrationVersion,
                  rollback.assumptions, rollback.reference, s.restart, s.smoke, s.externalChanges, false,
                  w.sha(RecordPayload(operationId, base)))
  }

  function ClonedBase(s: Stage, a: AuditMetadata, executor: string): AuditBase {
    AuditBase(s.parent, s.action, s.status, a.actor, a.authorizationId, a.verifier, a.verifiedAt, executor,
              a.repository, a.branch, a.candidateBuild, a.previousBuild, a.manifestSha, a.artifacts, a.gateSha,
              s.checks, a.requestedAt, s.recordedAt, a.migrationVersion, a.assumptions, a.rollbackReference,
              s.restart, s.smoke, s.externalChanges, false)
  }

  function CloneAudit(w: World, s: Stage, a: AuditMetadata, executor: string): AuditMetadata {
    var base := ClonedBase(s, a, executor);
    var operationId := OperationId(s.action, w.sha(BasePayload(base)));
    AuditMetadata(operationId, s.parent, s.action, s.status, a.actor, a.authorizationId, a.verifier, a.verifiedAt,
                  executor, a.repository, a.branch, a.candidateBuild, a.previousBuild, a.manifestSha, a.artifacts,
                  a.gateSha, s.checks, a.requestedAt, s.recordedAt, a.migrationVersion, a.assumptions,
                  a.rollbackReference, s.restart, s.smoke, s.externalChanges, false,
                  w.sha(RecordPayload(operationId, base)))
  }

  // ---- promotion plans

  datatype PromotionPlan = PromotionPlan(
    status: Status, reasons: seq<Reason>, candidateBuild: string, previousBuild: string, builder: string,
    production: string, manifestSha: string, approved: seq<Gate.Approved>, rollback: Option<Gate.Rollback>,
    rollbackTest: RollbackEvidence, preflight: seq<Evidence>, audit: AuditMetadata)

  /** Everything a promotion plan is built from. */
  datatype Request = Request(
    candidate: Gate.Candidate, decision: Gate.Decision, verification: Verification, authorization: Option<Authorization>,
    preflight: seq<Evidence>, rollbackTest: RollbackEvidence, preparedAt: string)

  function Fresh(w: World, c: Gate.Candidate): Gate.Decision { Gate.DecisionOf(w.fold, c, Gate.V1()) }

  function GateReasons(w: World, q: Request): seq<Reason> {
    var rerun := Fresh(w, q.candidate);
    Why(w.time(q.preparedAt).None?, "invalid_prepared_at", "prepared_at")
    + Why(q.decision != rerun, "gate_decision_mismatch", "gate_decision")
    + Why(!q.decision.promotable || !rerun.promotable, "gate_denied", "gate_decision")
  }

  function GateCheck(w: World, q: Request): AuditCheck {
    AuditCheck("fresh_gate_match", q.decision == Fresh(w, q.candidate), "deployment_gate", "Controller reran the gate.")
  }

  function ExpectedOf(w: World, q: Request): Expected {
    Expected(q.candidate.commit, q.verification.manifestSha, w.time(q.preparedAt))
  }

  function PromotionAuthorization(w: World, q: Request): seq<Reason> {
    AuthorizationReasons(w, q.candidate, q.verification.manifestSha, q.authorization, Promote, w.time(q.preparedAt))
  }

  function EarlyReasons(w: World, q: Request): seq<Reason> {
    GateReasons(w, q) + IdentityReasons(w, q.candidate, q.verification)
  }

  function PlanReasons(w: World, q: Request): seq<Reason> {
    EarlyReasons(w, q) + ManifestReasons(w, q.candidate, q.decision, q.verification) + PromotionAuthorization(w, q)
    + PreflightReasons(w, ExpectedOf(w, q), q.preflight)
    + RollbackReadiness(w, q.candidate.rollback, q.rollbackTest, w.time(q.preparedAt)).0
  }

  function PlanChecks(w: World, q: Request): seq<AuditCheck> {
    [GateCheck(w, q)] + IdentityChecks(w, q.candidate, q.verification, EarlyReasons(w, q))
    + ManifestChecks(w, q.candidate, q.decision, q.verification)
    + [AuthorizationCheck(q.authorization, PromotionAuthorization(w, q) == [])]
    + SmokeChecks(w, ExpectedOf(w, q), q.preflight)
    + RollbackReadiness(w, q.candidate.rollback, q.rollbackTest, w.time(q.preparedAt)).1
  }

  function PlanStage(q: Request, status: Status, checks: seq<AuditCheck>): Stage {
    Stage(Promote, status, checks, q.preparedAt, None, q.preflight, false, None)
  }

  function PlanWith(w: World, q: Request, reasons: seq<Reason>, checks: seq<AuditCheck>): PromotionPlan {
    var status := if reasons == [] then Ready else Blocked;
    PromotionPlan(status, reasons, q.candidate.commit, PreviousBuild(q.candidate.rollback), q.candidate.builder,
                  q.candidate.production, q.verification.manifestSha, q.decision.approved, q.candidate.rollback,
                  q.rollbackTest, q.preflight,
                  BuildAudit(w, PlanStage(q, status, checks), q.candidate, q.verification, q.authorization, q.decision))
  }

  function PlanOf(w: World, q: Request): PromotionPlan { PlanWith(w, q, PlanReasons(w, q), PlanChecks(w, q)) }

  method BuildPromotionPlan(w: World, q: Request) returns (plan: PromotionPlan)
    ensures plan == PlanOf(w, q)
  {
    hide IdentityReasons, ManifestReasons, ManifestChecks, AuthorizationReasons, PreflightReasons, SmokeChecks,
         RollbackReadiness, GateReasons, PlanWith, IdentityChecks, AuthorizationCheck;
    var rerun := Gate.CheckDeploymentCandidate(w.fold, q.candidate, Gate.V1());
    var reasons := GateReasons(w, q) + IdentityReasons(w, q.candidate, q.verification);
    var checks := [AuditCheck("fresh_gate_match", q.decision == rerun, "deployment_gate", "Controller reran the gate.")]
      + IdentityChecks(w, q.candidate, q.verification, reasons);
    reasons, checks := VerifyManifest(w, q.candidate, q.decision, q.verification, reasons, checks);
    var authorization := PromotionAuthorization(w, q);
    reasons := reasons + authorization;
    checks := checks + [AuthorizationCheck(q.authorization, authorization == [])];
    reasons, checks := VerifySmokeResults(w, ExpectedOf(w, q), q.preflight, reasons, checks);
    var (r, k) := RollbackReadiness(w, q.candidate.rollback, q.rollbackTest, w.time(q.preparedAt));
    reasons, checks := reasons + r, checks + k;
    return PlanWith(w, q, reasons, checks);
  }

  // ---- execution

  datatype Execution = Execution(
    executor: string, applied: bool, restart: Evidence, smoke: seq<Evidence>, completedAt: string)

  datatype Outcome = Outcome(
    status: Status, reasons: seq<Reason>, rollbackRequired: bool, furtherAllowed: bool, audit: AuditMetadata)

  function ExpectedAfter(w: World, plan: PromotionPlan, e: Execution): Expected {
    Expected(plan.candidateBuild, plan.manifestSha, w.time(e.completedAt))
  }

  predicate PostPasses(w: World, x: Expected, e: Evidence) {
    EvidenceValid(w, e, x.build, x.manifestSha, x.notAfter) && e.passed
  }

  function PostChecks(w: World, x: Expected, results: seq<Evidence>): seq<AuditCheck> {
    if results == [] then []
    else
      var n := |results| - 1;
      PostChecks(w, x, results[..n]) + [Label("post_smoke:", results[n], PostPasses(w, x, results[n]))]
  }

  predicate PostFailed(w: World, x: Expected, results: seq<Evidence>) {
    exists e :: e in results && !PostPasses(w, x, e)
  }

  function ExecutionReasons(w: World, plan: PromotionPlan, e: Execution): seq<Reason> {
    var x := ExpectedAfter(w, plan, e);
    Why(plan.status != Ready, "promotion_plan_blocked", "plan.status")
    + Why(Strip(e.executor) == "", "missing_executor_identity", "executor_identity")
    + Why(Who(w, e.executor) == Who(w, plan.builder), "builder_cannot_execute", "executor_identity")
    + Why(w.time(e.completedAt).None?, "invalid_completed_at", "completed_at")
    + Why(e.applied && !PostPasses(w, x, e.restart), "restart_failed", "restart_result")
    + Why(e.smoke == [], "missing_post_promotion_smoke", "smoke_results")
    + Why(e.applied && PostFailed(w, x, e.smoke), "post_promotion_smoke_failed", "smoke_results")
    + Why(plan.status != Ready && e.applied, "blocked_plan_was_applied", "plan.status")
  }

  function ExecutionChecks(w: World, plan: PromotionPlan, e: Execution): seq<AuditCheck> {
    var x := ExpectedAfter(w, plan, e);
    plan.audit.checks
    + [AuditCheck("external_promotion_applied", e.applied, e.executor, ""),
       AuditCheck("production_restart", PostPasses(w, x, e.restart), e.restart.reference, "")]
    + PostChecks(w, x, e.smoke)
  }

  function ExecutionStatus(ready: bool, applied: bool, clean: bool): Status {
    if !ready && applied then Stopped
    else if !ready then Blocked
    else if !applied then NotExecuted
    else if !clean then Stopped
    else Completed
  }

  function OutcomeWith(w: World, plan: PromotionPlan, e: Execution, reasons: seq<Reason>, checks: seq<AuditCheck>)
    : Outcome
  {
    var status := ExecutionStatus(plan.status == Ready, e.applied, reasons == []);
    Outcome(status, reasons, e.applied && status == Stopped, status == Completed,
            CloneAudit(w, Stage(Promote, status, checks, e.completedAt, Some(e.restart), e.smoke, e.applied,
                                Some(plan.audit.operationId)), plan.audit, e.executor))
  }

  function OutcomeOf(w: World, plan: PromotionPlan, e: Execution): Outcome {
    OutcomeWith(w, plan, e, ExecutionReasons(w, plan, e), ExecutionChecks(w, plan, e))
  }

  method AssessPromotionExecution(w: World, plan: PromotionPlan, e: Execution) returns (outcome: Outcome)
    ensures outcome == OutcomeOf(w, plan, e)
  {
    hide PostPasses, Who, OutcomeWith, Why;
    var x := ExpectedAfter(w, plan, e);
    var reasons := Why(plan.status != Ready, "promotion_plan_blocked", "plan.status")
      + Why(Strip(e.executor) == "", "missing_executor_identity", "executor_identity")
      + Why(Who(w, e.executor) == Who(w, plan.builder), "builder_cannot_execute", "executor_identity")
      + Why(w.time(e.completedAt).None?, "invalid_completed_at", "completed_at")
      + Why(e.applied && !PostPasses(w, x, e.restart), "restart_failed", "restart_result")
      + Why(e.smoke == [], "missing_post_promotion_smoke", "smoke_results");
    var checks := plan.audit.checks
      + [AuditCheck("external_promotion_applied", e.applied, e.executor, ""),
         AuditCheck("production_restart", PostPasses(w, x, e.restart), e.restart.reference, "")];
    ghost var before := checks;
    var failed := false;
    assert e.smoke[..0] == [];
    for i := 0 to |e.smoke|
      invariant checks == before + PostChecks(w, x, e.smoke[..i]) && failed == PostFailed(w, x, e.smoke[..i])
    {
      assert e.smoke[..i + 1][..i] == e.smoke[..i] && e.smoke[..i + 1] == e.smoke[..i] + [e.smoke[i]];
      var passed := PostPasses(w, x, e.smoke[i]);
      checks := checks + [Label("post_smoke:", e.smoke[i], passed)];
      if !passed { failed := true; }
    }
    assert e.smoke[..|e.smoke|] == e.smoke;
    reasons := reasons + Why(e.applied && failed, "post_promotion_smoke_failed", "smoke_results")
      + Why(plan.status != Ready && e.applied, "blocked_plan_was_applied", "plan.status");
    return OutcomeWith(w, plan, e, reasons, checks);
  }

  // ---- rollback

  function VerificationFrom(plan: PromotionPlan): Verification {
    Verification(plan.audit.repository, plan.audit.branch, plan.candidateBuild, plan.candidateBuild,
                 plan.candidateBuild, true, true, plan.manifestSha, plan.audit.artifacts,
                 "trusted-promotion-controller", plan.audit.recordedAt)
  }

  function Inventory(artifacts: seq<ManifestArtifact>): seq<Gate.DeploymentArtifact> {
    seq(|artifacts|, i requires 0 <= i < |artifacts| =>
      Gate.DeploymentArtifact(artifacts[i].path, Some(artifacts[i].resolved)))
  }

  function CandidateFrom(plan: PromotionPlan): Gate.Candidate {
    Gate.Candidate(plan.audit.repository, plan.audit.branch, plan.candidateBuild, plan.builder, plan.production,
                   "data/local_staging", "data", Inventory(plan.audit.artifacts), plan.rollback, true, true, true, true)
  }

  function GateFrom(w: World, plan: PromotionPlan): Gate.Decision { Fresh(w, CandidateFrom(plan)) }

  datatype RollbackPlan = RollbackPlan(
    status: Status, reasons: seq<Reason>, candidateBuild: string, targetBuild: string, reference: string,
    assumptions: string, audit: AuditMetadata)

  function RollbackAuthorization(w: World, plan: PromotionPlan, a: Option<Authorization>, preparedAt: string)
    : seq<Reason>
  {
    AuthorizationReasons(w, CandidateFrom(plan), VerificationFrom(plan).manifestSha, a, Rollback, w.time(preparedAt))
  }

  function RollbackReasons(w: World, plan: PromotionPlan, outcome: Outcome, a: Option<Authorization>, preparedAt: string)
    : seq<Reason>
  {
    Why(w.time(preparedAt).None?, "invalid_prepared_at", "prepared_at")
    + Why(plan.status != Ready && !outcome.rollbackRequired, "promotion_plan_blocked", "promotion_plan.status")
    + Why(outcome.status != Completed && outcome.status != Stopped, "rollback_not_applicable", "outcome.status")
    + RollbackAuthorization(w, plan, a, preparedAt)
  }

  function RollbackChecks(w: World, plan: PromotionPlan, a: Option<Authorization>, preparedAt: string): seq<AuditCheck> {
    [AuthorizationCheck(a, RollbackAuthorization(w, plan, a, preparedAt) == [])]
  }

  function RollbackPlanOf(w: World, plan: PromotionPlan, outcome: Outcome, a: Option<Authorization>, preparedAt: string)
    : RollbackPlan
  {
    var reasons := RollbackReasons(w, plan, outcome, a, preparedAt);
    var status := if reasons == [] then PendingTest else Blocked;
    var rollback := if plan.rollback.Some? then plan.rollback.value else NoRollback();
    var stage := Stage(Rollback, status, RollbackChecks(w, plan, a, preparedAt), preparedAt, None, [], false,
                       Some(outcome.audit.operationId));
    RollbackPlan(status, reasons, plan.candidateBuild, rollback.previousBuild, rollback.reference, rollback.assumptions,
                 BuildAudit(w, stage, CandidateFrom(plan), VerificationFrom(plan), a, GateFrom(w, plan)))
  }

  datatype Assessment = Assessment(
    status: Status, reasons: seq<Reason>, plan: RollbackPlan, evidence: RollbackEvidence, audit: AuditMetadata)

  function AssessmentReasons(w: World, plan: RollbackPlan, e: RollbackEvidence, evaluatedAt: string): seq<Reason> {
    plan.reasons + Why(plan.status == Blocked, "rollback_plan_blocked", "plan.status")
    + RollbackTestReasons(w, plan.reference, plan.targetBuild, e, None)
    + Why(w.time(evaluatedAt).None?, "invalid_evaluated_at", "evaluated_at")
  }

  function AssessmentOf(w: World, plan: RollbackPlan, e: RollbackEvidence, evaluatedAt: string): Assessment {
    var reasons := AssessmentReasons(w, plan, e, evaluatedAt);
    var status := if reasons == [] then Ready else Blocked;
    var valid := RollbackTestReasons(w, plan.reference, plan.targetBuild, e, None) == [];
    var stage := Stage(RollbackTest, status, plan.audit.checks + [ReadinessCheck(plan.targetBuild, e, valid)],
                       evaluatedAt, None, [], false, Some(plan.audit.operationId));
    Assessment(status, reasons, plan, e, CloneAudit(w, stage, plan.audit, plan.audit.executor))
  }
}
