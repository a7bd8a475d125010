/** The check-only deployment gate: which candidates and artifacts may be promoted. */
module DeploymentGate {
  import opened Prelude
  import opened Text

  /** Case folding of text; nothing about it is assumed. */
  type Fold = string -> string

  // ---- paths

  predicate StartsWithAny(s: string, prefixes: seq<string>) { exists p :: p in prefixes && p <= s }

  predicate EndsWith(s: string, end: string) { |end| <= |s| && s[|s| - |end|..] == end }

  predicate EndsWithAny(s: string, ends: seq<string>) { exists e :: e in ends && EndsWith(s, e) }

  predicate ContainsAny(s: string, parts: seq<string>) { exists p :: p in parts && Contains(s, p) }

  /** Why a text is no repository path in canonical form, if it is none. */
  function PathError(value: string): Option<string> {
    if value == "" || '\0' in value || '\\' in value || value[0] == '/' || value[|value| - 1] == '/'
    then Some("invalid_artifact_path")
    else if exists p :: p in Split(value, '/') && p in ["", ".", ".."] then Some("path_traversal_denied")
    else None
  }

  function BaseName(path: string): string {
    var parts := Split(path, '/');
    parts[|parts| - 1]
  }

  function LastDot(s: string): Option<nat> {
    if s == "" then None
    else if s[|s| - 1] == '.' then Some(|s| - 1)
    else LastDot(s[..|s| - 1])
  }

  /** From the last point on, unless that is the first or the last character. */
  function Suffix(name: string): string {
    var dot := LastDot(name);
    if dot.Some? && 0 < dot.value < |name| - 1 then name[dot.value..] else ""
  }

  /** What the gate and the controller each refuse to deploy. */
  datatype DenyRules = DenyRules(controls: seq<string>, secrets: seq<string>, runtimeComponents: seq<string>)

  function RuntimePrefixes(): seq<string> { ["data/", ".git/", ".venv/", ".pytest_cache/", "__pycache__/"] }

  function SharedControls(): seq<string> {
    ["config/agent.yaml", "scripts/bootstrap_minillm_production.sh", "scripts/cutover_minillm_production.sh",
     "scripts/home_mcp_tunnel.sh", "scripts/install_minillm_admin_helper.sh", "scripts/minillm_admin.py",
     "scripts/provision_minillm_service_identities.sh", "scripts/verify_service_identity_boundaries.sh",
     "src/local_agent_lab/deployment_gate.py", "src/local_agent_lab/home_mcp.py",
     "src/local_agent_lab/memory/audit.py", "src/local_agent_lab/services/home_mcp_launchd.py",
     "src/local_agent_lab/trusted_promotion.py", "src/local_agent_lab/trusted_promotion_cli.py"]
  }

  function SharedSecrets(): seq<string> {
    [".ssh", "credential", "credentials", "private_key", "private_keys", "secret", "secrets", "tokens"]
  }

  function GateRules(): DenyRules { DenyRules(SharedControls(), SharedSecrets(), []) }

  predicate SecretPath(parts: seq<string>, name: string, secrets: seq<string>) {
    || (exists p :: p in parts && p in secrets)
    || name == ".env" || ".env." <= name || name in ["id_dsa", "id_ed25519", "id_rsa"]
    || EndsWithAny(name, [".key", ".p12", ".pem", ".pfx"])
    || ContainsAny(name, ["credential", "secret", "token"])
  }

  function Denial(fold: Fold, path: string, rules: DenyRules): Option<string> {
    var lower, raw := fold(path), Split(path, '/');
    var parts := seq(|raw|, i requires 0 <= i < |raw| => fold(raw[i]));
    var name := parts[|parts| - 1];
    if StartsWithAny(lower, RuntimePrefixes()) then Some("runtime_data_path_denied")
    else if lower in rules.controls then Some("control_plane_path_denied")
    else if exists p :: p in parts && p in rules.runtimeComponents then Some("runtime_data_path_denied")
    else if SecretPath(parts, name, rules.secrets) then Some("credential_path_denied")
    else if "config/" <= lower && ContainsAny(name, ["auth", "production", "tunnel"])
      then Some("control_plane_path_denied")
    else None
  }

  datatype Category = Source | Test | Config | Documentation

  function CategoryOf(fold: Fold, path: string): Option<Category> {
    var suffix := fold(Suffix(BaseName(path)));
    if "src/local_agent_lab/" <= path && suffix == ".py" then Some(Source)
    else if "tests/" <= path && suffix == ".py" then Some(Test)
    else if "config/" <= path && suffix in [".json", ".toml", ".yaml", ".yml", ".md"] then Some(Config)
    else if "docs/" <= path && suffix == ".md" then Some(Documentation)
    else None
  }

  // ---- candidates

  datatype DeploymentArtifact = DeploymentArtifact(path: string, resolved: Option<string>)

  datatype Rollback = Rollback(
    previousBuild: string, candidateBuild: string, migrationVersion: string, reference: string, assumptions: string)

  datatype Candidate = Candidate(
    repository: string, branch: string, commit: string, builder: string, production: string, stagingRoot: string,
    productionRoot: string, artifacts: seq<DeploymentArtifact>, rollback: Option<Rollback>, testsPassed: bool,
    evalsPassed: bool, securityPassed: bool, migrationCompatible: bool)

  datatype Policy = Policy(repository: string, branches: seq<string>, stagingRoot: string, productionRoot: string)

  function V1(): Policy { Policy("MiniLLM", ["main"], "data/local_staging", "data") }

  /** The wording of a reason: the gate's own, which its other parts determine, or some other text. */
  datatype Message = Own | Foreign(text: string)

  datatype GateReason = GateReason(code: string, message: Message, field: Option<string>, path: Option<string>)

  datatype Approved = Approved(path: string, category: Category)

  datatype Decision = Decision(
    promotable: bool, reasons: seq<GateReason>, approved: seq<Approved>, requirements: seq<string>,
    missing: seq<string>)

  function On(fails: bool, code: string, field: string): seq<GateReason> {
    if fails then [GateReason(code, Own, Some(field), None)] else []
  }

  function Identity(fold: Fold, name: string): string { fold(Strip(name)) }

  function EnvironmentReasons(fold: Fold, c: Candidate, p: Policy): seq<GateReason> {
    var builder, production := Identity(fold, c.builder), Identity(fold, c.production);
    var same :=
      PathError(c.stagingRoot).None? == PathError(c.productionRoot).None?
      && (PathError(c.stagingRoot).None? ==> c.stagingRoot == c.productionRoot);
    On(builder == "", "missing_builder_identity", "builder_identity")
    + On(production == "", "missing_production_identity", "production_identity")
    + On(builder != "" && builder == production, "identity_boundary_violation", "builder_identity")
    + On(PathError(c.stagingRoot).Some? || c.stagingRoot != p.stagingRoot, "unexpected_staging_root",
         "staging_runtime_root")
    + On(PathError(c.productionRoot).Some? || c.productionRoot != p.productionRoot, "unexpected_production_root",
         "production_runtime_root")
    + On(same, "runtime_boundary_violation", "staging_runtime_root")
  }

  function BuildReasons(c: Candidate, p: Policy): seq<GateReason> {
    On(c.repository != p.repository, "unknown_repository", "repository")
    + On(c.branch !in p.branches, "unexpected_branch", "branch")
    + On(Strip(c.commit) == "", "missing_candidate_commit", "candidate_commit")
    + On(!c.testsPassed, "required_check_failed", "tests_passed")
    + On(!c.evalsPassed, "required_check_failed", "evals_passed")
    + On(!c.securityPassed, "required_check_failed", "security_checks_passed")
    + On(!c.migrationCompatible, "required_check_failed", "migration_compatible")
  }

  function Refused(code: string, field: string, path: string): Result<Approved, GateReason> {
    Err(GateReason(code, Own, Some(field), Some(path)))
  }

  /** An artifact is approved with its category, or refused for one reason. */
  function CheckArtifact(fold: Fold, a: DeploymentArtifact): Result<Approved, GateReason> {
    if PathError(a.path).Some? then Refused(PathError(a.path).value, "artifacts", a.path)
    else if a.resolved.None? then Refused("missing_resolved_path", "artifacts.resolved_path", a.path)
    else if PathError(a.resolved.value).Some?
      then Refused(PathError(a.resolved.value).value, "artifacts.resolved_path", a.resolved.value)
    else if a.resolved.value != a.path then Refused("artifact_resolution_mismatch", "artifacts.resolved_path", a.path)
    else if Denial(fold, a.path, GateRules()).Some?
      then Refused(Denial(fold, a.path, GateRules()).value, "artifacts", a.path)
    else if CategoryOf(fold, a.path).None? then Refused("artifact_not_allowlisted", "artifacts", a.path)
    else Ok(Approved(a.path, CategoryOf(fold, a.path).value))
  }

  function ArtifactReasons(fold: Fold, artifacts: seq<DeploymentArtifact>): seq<GateReason> {
    if artifacts == [] then []
    else
      var last := CheckArtifact(fold, artifacts[|artifacts| - 1]);
      ArtifactReasons(fold, artifacts[..|artifacts| - 1]) + if last.Err? then [last.error] else []
  }

  function ApprovedArtifacts(fold: Fold, artifacts: seq<DeploymentArtifact>): seq<Approved> {
    if artifacts == [] then []
    else
      var last := CheckArtifact(fold, artifacts[|artifacts| - 1]);
      ApprovedArtifacts(fold, artifacts[..|artifacts| - 1]) + if last.Ok? then [last.value] else []
  }

  function Requirements(): seq<string> {
    ["previous_build", "candidate_build", "migration_version", "rollback_reference", "data_compatibility_assumptions"]
  }

  function IfBlank(value: string, name: string): seq<string> { if Strip(value) == "" then [name] else [] }

  function MissingFields(rollback: Option<Rollback>): seq<string> {
    if rollback.None? then Requirements()
    else
      var r := rollback.value;
      IfBlank(r.previousBuild, "previous_build") + IfBlank(r.candidateBuild, "candidate_build")
      + IfBlank(r.migrationVersion, "migration_version") + IfBlank(r.reference, "rollback_reference")
      + IfBlank(r.assumptions, "data_compatibility_assumptions")
  }

  predicate ValidReference(value: string) {
    && !ContainsAny(value, [";", "&&", "||", "`", "$(", "\n", "\r"])
    && (   ("artifact:" <= value && Strip(value[9..]) != "") || ("git-ref:" <= value && Strip(value[8..]) != "")
        || ("procedure:" <= value && Strip(value[10..]) != ""))
  }

  function RollbackReasons(c: Candidate): seq<GateReason> {
    if MissingFields(c.rollback) != [] then On(true, "missing_rollback_metadata", "rollback")
    else if c.rollback.None? then []
    else
      var r := c.rollback.value;
      On(r.candidateBuild != c.commit, "rollback_candidate_mismatch", "rollback.candidate_build")
      + On(r.previousBuild == r.candidateBuild, "rollback_has_no_previous_build", "rollback.previous_build")
      + On(!ValidReference(r.reference), "unsafe_rollback_reference", "rollback.rollback_reference")
  }

  function GateReasons(fold: Fold, c: Candidate, p: Policy): seq<GateReason> {
    EnvironmentReasons(fold, c, p) + BuildReasons(c, p) + ArtifactReasons(fold, c.artifacts)
    + On(c.artifacts == [], "empty_artifact_set", "artifacts") + RollbackReasons(c)
  }

  function DecisionOf(fold: Fold, c: Candidate, p: Policy): Decision {
    var reasons := GateReasons(fold, c, p);
    Decision(reasons == [], if reasons == [] then [GateReason("candidate_checks_passed", Own, None, None)] else reasons,
             ApprovedArtifacts(fold, c.artifacts), Requirements(), MissingFields(c.rollback))
  }

  method CheckDeploymentCandidate(fold: Fold, c: Candidate, p: Policy) returns (decision: Decision)
    ensures decision == DecisionOf(fold, c, p)
  {
    hide EnvironmentReasons, BuildReasons, CheckArtifact, MissingFields, RollbackReasons, On;
    var reasons := EnvironmentReasons(fold, c, p) + BuildReasons(c, p);
    ghost var before := reasons;
    var approved: seq<Approved> := [];
    assert c.artifacts[..0] == [];
    for k := 0 to |c.artifacts|
      invariant reasons == before + ArtifactReasons(fold, c.artifacts[..k])
      invariant approved == ApprovedArtifacts(fold, c.artifacts[..k])
    {
      assert c.artifacts[..k + 1][..k] == c.artifacts[..k];
      match CheckArtifact(fold, c.artifacts[k]) {
        case Err(reason) => reasons := reasons + [reason];
        case Ok(artifact) => approved := approved + [artifact];
      }
    }
    assert c.artifacts[..|c.artifacts|] == c.artifacts;
    reasons := reasons + On(c.artifacts == [], "empty_artifact_set", "artifacts") + RollbackReasons(c);
    var promotable := reasons == [];
    if promotable { reasons := [GateReason("candidate_checks_passed", Own, None, None)]; }
    return Decision(promotable, reasons, approved, Requirements(), MissingFields(c.rollback));
  }

  // ---- what an allowing decision means

  /** Everything the gate asks of a candidate. */
  predicate Acceptable(fold: Fold, c: Candidate, p: Policy) {
    && Identity(fold, c.builder) != "" && Identity(fold, c.production) != ""
    && Identity(fold, c.builder) != Identity(fold, c.production)
    && c.stagingRoot == p.stagingRoot && c.productionRoot == p.productionRoot && c.stagingRoot != c.productionRoot
    && PathError(c.stagingRoot).None? && PathError(c.productionRoot).None?
    && c.repository == p.repository && c.branch in p.branches && Strip(c.commit) != ""
    && c.testsPassed && c.evalsPassed && c.securityPassed && c.migrationCompatible
    && c.artifacts != [] && (forall a | a in c.artifacts :: CheckArtifact(fold, a).Ok?)
    && c.rollback.Some? && Restorable(c.rollback.value, c.commit)
  }

  predicate Restorable(r: Rollback, commit: string) {
    && Strip(r.previousBuild) != "" && Strip(r.migrationVersion) != "" && Strip(r.assumptions) != ""
    && Strip(r.candidateBuild) != "" && Strip(r.reference) != ""
    && r.candidateBuild == commit && r.previousBuild != commit && ValidReference(r.reference)
  }

  lemma {:induction false} ArtifactsAllowed(fold: Fold, artifacts: seq<DeploymentArtifact>)
    ensures ArtifactReasons(fold, artifacts) == [] <==> forall a | a in artifacts :: CheckArtifact(fold, a).Ok?
    ensures forall x :: x in ApprovedArtifacts(fold, artifacts) <==>
      exists a :: a in artifacts && CheckArtifact(fold, a) == Ok(x)
  {
    hide CheckArtifact;
    if artifacts != [] {
      var n := |artifacts| - 1;
      ArtifactsAllowed(fold, artifacts[..n]);
      assert artifacts == artifacts[..n] + [artifacts[n]];
      assert forall a :: a in artifacts <==> a in artifacts[..n] || a == artifacts[n];
    }
  }

  lemma EnvironmentAllowed(fold: Fold, c: Candidate, p: Policy)
    ensures EnvironmentReasons(fold, c, p) == [] <==>
      && Identity(fold, c.builder) != "" && Identity(fold, c.production) != ""
      && Identity(fold, c.builder) != Identity(fold, c.production)
      && c.stagingRoot == p.stagingRoot && c.productionRoot == p.productionRoot && c.stagingRoot != c.productionRoot
      && PathError(c.stagingRoot).None? && PathError(c.productionRoot).None?
  {
    hide Identity, PathError;
  }

  lemma BuildAllowed(c: Candidate, p: Policy)
    ensures BuildReasons(c, p) == [] <==>
      && c.repository == p.repository && c.branch in p.branches && Strip(c.commit) != ""
      && c.testsPassed && c.evalsPassed && c.securityPassed && c.migrationCompatible
  {
    hide Strip;
  }

  lemma RollbackAllowed(c: Candidate)
    ensures RollbackReasons(c) == [] <==> c.rollback.Some? && Restorable(c.rollback.value, c.commit)
  {
    hide Strip, ValidReference;
  }

  /** The gate allows a candidate exactly when it meets every requirement. */
  lemma GateMeaning(fold: Fold, c: Candidate, p: Policy)
    ensures DecisionOf(fold, c, p).promotable <==> Acceptable(fold, c, p)
  {
    EnvironmentAllowed(fold, c, p);
    BuildAllowed(c, p);
    RollbackAllowed(c);
    ArtifactsAllowed(fold, c.artifacts);
    hide EnvironmentReasons, BuildReasons, RollbackReasons, ArtifactReasons, ApprovedArtifacts, CheckArtifact, Identity,
         PathError, Restorable, Strip, MissingFields;
  }

  /** Approved artifacts stand in the order of the candidate's own. */
  lemma {:induction false} ApprovedList(fold: Fold, artifacts: seq<DeploymentArtifact>)
    requires forall a | a in artifacts :: CheckArtifact(fold, a).Ok?
    ensures |ApprovedArtifacts(fold, artifacts)| == |artifacts|
    ensures forall i | 0 <= i < |artifacts| ::
      artifacts[i] in artifacts && ApprovedArtifacts(fold, artifacts)[i] == CheckArtifact(fold, artifacts[i]).value
  {
    hide CheckArtifact;
    if artifacts != [] {
      var n := |artifacts| - 1;
      assert artifacts == artifacts[..n] + [artifacts[n]];
      ApprovedList(fold, artifacts[..n]);
    }
  }

  function ApprovedPaths(approved: seq<Approved>): set<string> { set x | x in approved :: x.path }

  lemma SamePaths(artifacts: seq<DeploymentArtifact>, approved: seq<Approved>)
    requires |approved| == |artifacts| && forall i | 0 <= i < |approved| :: approved[i].path == artifacts[i].path
    ensures ApprovedPaths(approved) == set a | a in artifacts :: a.path
  {
    forall i | 0 <= i < |approved| ensures artifacts[i].path in ApprovedPaths(approved) {
      assert approved[i] in approved;
    }
    forall i | 0 <= i < |approved| ensures approved[i].path in set a | a in artifacts :: a.path {
      assert artifacts[i] in artifacts;
    }
  }

  lemma ApprovedOf(fold: Fold, artifacts: seq<DeploymentArtifact>)
    requires forall a | a in artifacts :: CheckArtifact(fold, a).Ok?
    ensures ApprovedPaths(ApprovedArtifacts(fold, artifacts)) == set a | a in artifacts :: a.path
    ensures forall x | x in ApprovedArtifacts(fold, artifacts) :: CategoryOf(fold, x.path) == Some(x.category)
  {
    hide CheckArtifact, ApprovedArtifacts, CategoryOf, ApprovedPaths;
    var approved := ApprovedArtifacts(fold, artifacts);
    ApprovedList(fold, artifacts);
    forall i | 0 <= i < |approved|
      ensures approved[i].path == artifacts[i].path && CategoryOf(fold, approved[i].path) == Some(approved[i].category)
    {
      ArtifactApproved(fold, artifacts[i]);
    }
    SamePaths(artifacts, approved);
  }

  /** What is approved is the candidate's own paths, each under the category of its place and suffix. */
  lemma ApprovedMeaning(fold: Fold, c: Candidate, p: Policy)
    requires DecisionOf(fold, c, p).promotable
    ensures ApprovedPaths(DecisionOf(fold, c, p).approved) == set a | a in c.artifacts :: a.path
    ensures forall x | x in DecisionOf(fold, c, p).approved :: CategoryOf(fold, x.path) == Some(x.category)
  {
    GateMeaning(fold, c, p);
    hide CheckArtifact, GateReasons, ApprovedArtifacts, CategoryOf, MissingFields, ApprovedPaths;
    ApprovedOf(fold, c.artifacts);
  }

  lemma ArtifactApproved(fold: Fold, a: DeploymentArtifact)
    requires CheckArtifact(fold, a).Ok?
    ensures CheckArtifact(fold, a).value.path == a.path && a.resolved == Some(a.path)
    ensures CategoryOf(fold, a.path) == Some(CheckArtifact(fold, a).value.category)
  {
    hide CategoryOf, Denial, PathError;
  }
}
