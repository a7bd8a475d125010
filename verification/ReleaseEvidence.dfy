/** Release evidence: artifact gates driven by a policy table, and the manifest that accounts for every blocker. */
module ReleaseEvidence {
  import opened Prelude
  import opened Sorting
  import opened Text
  import opened Json

  // ---- policy rules

  /** One row of the policy table: a dotted path, an operation and the value it expects. */
  datatype Rule = Rule(path: string, operation: string, expected: Value)

  datatype Policy = Policy(artifactType: string, maxAgeHours: int, rules: seq<Rule>)

  /** What ends the whole evaluation without a manifest. */
  datatype Abort = UnsupportedOperation | NotAPath | TimestampOverflow | AgeOverflow | ReadFault

  function Walk(value: Value, parts: seq<string>): Value {
    if parts == [] then value
    else if value.Dict? && parts[0] in value.fields then Walk(value.fields[parts[0]], parts[1..])
    else Null
  }

  /** The value at a dotted path; null where the path leaves the artifact. */
  function GetPath(artifact: Fields, path: string): Value { Walk(Dict(artifact), Split(path, '.')) }

  predicate SameType(a: Value, b: Value) {
    match a
    case Null => b.Null?
    case Bool(_) => b.Bool?
    case Int(_) => b.Int?
    case Float(_) => b.Float? || b.Infinite?
    case Infinite(_) => b.Float? || b.Infinite?
    case Str(_) => b.Str?
    case List(_) => b.List?
    case Dict(_) => b.Dict?
  }

  /** What a hashable value is as an element of a set: equal numbers are one element. */
  datatype Element = NoneElement | NumberElement(x: real) | InfiniteElement(positive: bool) | TextElement(s: string)

  predicate Hashable(v: Value) { !v.List? && !v.Dict? }

  function ElementOf(v: Value): Element
    requires Hashable(v)
  {
    match v
    case Str(s) => TextElement(s)
    case Bool(b) => NumberElement(if b then 1.0 else 0.0)
    case Int(n) => NumberElement(n as real)
    case Float(x) => NumberElement(x)
    case Infinite(positive) => InfiniteElement(positive)
    case _ => NoneElement
  }

  function Elements(items: seq<Value>): set<Element>
    requires forall v | v in items :: Hashable(v)
  {
    set v | v in items :: ElementOf(v)
  }

  predicate AllHashable(items: seq<Value>) { forall v | v in items :: Hashable(v) }

  /** `set(value)`, where it does not raise: the items of a list, the characters of a text, the keys of an object. */
  function SetOf(value: Value): Option<set<Element>> {
    match value
    case List(items) => if AllHashable(items) then Some(Elements(items)) else None
    case Str(s) => Some(set c | c in s :: TextElement([c]))
    case Dict(fields) => Some(set k | k in fields :: TextElement(k))
    case _ => None
  }

  predicate Passes(actual: Value, operation: string, expected: Value) {
    var number := Numeric(actual) && !actual.Bool? && Numeric(expected);
    match operation
    case "eq" => SameType(actual, expected) && Equal(actual, expected)
    case "eq_path" => !actual.Null? && Equal(actual, expected)
    case "min" => number && AtLeast(actual, expected)
    case "max" => number && AtLeast(expected, actual)
    case "set_eq" =>
      && actual.List? && SetOf(actual).Some? && SetOf(actual) == SetOf(expected)
      && |actual.items| == |SetOf(actual).value|
    case "contains" =>
      && actual.List? && SetOf(actual).Some? && SetOf(expected).Some? && SetOf(expected).value <= SetOf(actual).value
    case _ => false
  }

  predicate Supported(operation: string) {
    operation in ["eq", "eq_path", "min", "max", "set_eq", "contains"]
  }

  /** Type errors in a comparison fail the rule; an unknown operation aborts the whole manifest. */
  function EvaluateRule(artifact: Fields, rule: Rule): Result<bool, Abort> {
    var actual := GetPath(artifact, rule.path);
    if rule.operation == "eq_path" then
      if rule.expected.Str? then Ok(Passes(actual, "eq_path", GetPath(artifact, rule.expected.s))) else Err(NotAPath)
    else if !Supported(rule.operation) then Err(UnsupportedOperation)
    else Ok(Passes(actual, rule.operation, rule.expected))
  }

  // ---- artifact checks

  datatype Repository = Repository(commit: string, tree: string, lock: string, dirty: bool)

  /** Digests of the required repository files; a file that is not there or not regular has none. */
  type FileDigests = map<string, Option<string>>

  /** Reading a file can also fail in a way that nothing catches. */
  datatype Reading = Digest(sha: string) | Unusable | Faulted

  datatype Check = Check(name: string, passed: bool, code: string)

  datatype Blocker = Blocker(gate: string, code: string, detail: string)

  function SCHEMA_VERSION(): string { "minillm_release_evidence_artifact_v1" }

  const MICROSECONDS_PER_HOUR := 3_600_000_000

  const FUTURE_TOLERANCE := 300_000_000

  function Sub(v: Value, key: string): Value { if v.Dict? then Get(v.fields, key) else Null }

  predicate CommandRecorded(argv: Value) {
    argv.List? && argv.items != [] && forall v | v in argv.items :: v.Str? && v.s != ""
  }

  function CommonChecks(artifact: Fields, artifactType: string, repo: Repository): seq<Check> {
    var command, origin := Get(artifact, "command"), Get(artifact, "repository");
    [Check("schema_version", Get(artifact, "schema_version") == Str(SCHEMA_VERSION()), "artifact_schema_mismatch"),
     Check("artifact_type", Get(artifact, "artifact_type") == Str(artifactType), "artifact_type_mismatch"),
     Check("status", Get(artifact, "status") == Str("pass"), "artifact_failed"),
     Check("command_recorded", CommandRecorded(Sub(command, "argv")), "command_evidence_missing"),
     Check("command_exit_code", EqualsInt(Sub(command, "exit_code"), 0), "command_failed"),
     Check("repository.git_commit", Sub(origin, "git_commit") == Str(repo.commit), "repository_identity_mismatch"),
     Check("repository.git_tree", Sub(origin, "git_tree") == Str(repo.tree), "repository_identity_mismatch"),
     Check("repository.uv_lock_sha256", Sub(origin, "uv_lock_sha256") == Str(repo.lock), "repository_identity_mismatch"),
     Check("repository.git_dirty", Sub(origin, "git_dirty") == Bool(false), "dirty_artifact")]
  }

  /** A duration of this many hours has at most 999999999 days, as durations must. */
  predicate Representable(hours: int) { -999_999_999 <= hours / 24 <= 999_999_999 }

  /** Ages are in microseconds. */
  function TimeChecks(generated: Timestamp, asOf: int, maxAgeHours: int): Result<seq<Check>, Abort> {
    match generated
    case NoTimestamp => Ok([Check("generated_at", false, "artifact_timestamp_invalid")])
    case OutsideCalendar => Err(TimestampOverflow)
    case Instant(at) =>
      if !Representable(maxAgeHours) then Err(AgeOverflow)
      else
        var age := asOf - at;
        Ok([Check("generated_at_not_future", age >= -FUTURE_TOLERANCE, "artifact_from_future"),
            Check("artifact_age_hours", age <= maxAgeHours * MICROSECONDS_PER_HOUR, "artifact_stale")])
  }

  function RuleCheck(rule: Rule, passed: bool): Check {
    Check(rule.path + ":" + rule.operation, passed, "threshold_failed")
  }

  function RuleChecks(artifact: Fields, rules: seq<Rule>): Result<seq<Check>, Abort> {
    if rules == [] then Ok([])
    else
      var before := RuleChecks(artifact, rules[..|rules| - 1]);
      var last := rules[|rules| - 1];
      if before.Err? then before
      else
        match EvaluateRule(artifact, last)
        case Err(error) => Err(error)
        case Ok(passed) => Ok(before.value + [RuleCheck(last, passed)])
  }

  predicate LicenseBound(artifact: Fields, digests: FileDigests) {
    var details := Get(artifact, "details");
    && Sub(details, "license_path") == Str("LICENSE")
    && "LICENSE" in digests && digests["LICENSE"].Some?
    && Sub(details, "license_sha256") == Str(digests["LICENSE"].value)
  }

  function LicenseChecks(artifact: Fields, artifactType: string, digests: FileDigests): seq<Check> {
    if artifactType == "license_review"
    then [Check("license_file_binding", LicenseBound(artifact, digests), "license_binding_mismatch")]
    else []
  }

  /** Everything the gates read besides the artifacts. */
  datatype Context = Context(repo: Repository, digests: FileDigests, asOf: int, time: Value -> Timestamp)

  function Checks(artifact: Fields, policy: Policy, ctx: Context): Result<seq<Check>, Abort> {
    match TimeChecks(ctx.time(Get(artifact, "generated_at")), ctx.asOf, policy.maxAgeHours)
    case Err(error) => Err(error)
    case Ok(times) =>
      match RuleChecks(artifact, policy.rules)
      case Err(error) => Err(error)
      case Ok(checks) =>
        Ok(CommonChecks(artifact, policy.artifactType, ctx.repo) + times
           + checks + LicenseChecks(artifact, policy.artifactType, ctx.digests))
  }

  /** One blocker for every failed check. */
  function FailedBlockers(gate: string, checks: seq<Check>): seq<Blocker> {
    if checks == [] then []
    else
      var last := checks[|checks| - 1];
      FailedBlockers(gate, checks[..|checks| - 1]) + if last.passed then [] else [Blocker(gate, last.code, last.name)]
  }

  predicate BlockerLe(a: Blocker, b: Blocker) {
    if a.gate != b.gate then StringLe(a.gate, b.gate)
    else if a.code != b.code then StringLe(a.code, b.code)
    else StringLe(a.detail, b.detail)
  }

  // ---- records

  /** What is at the path given for an artifact, if one is; `Unopenable` is a failure that nothing catches. */
  datatype Supplied = NotSupplied | Unreadable | Unopenable | Artifact(fields: Fields)

  datatype Status = Missing | Invalid | Passed | Failed

  datatype Record = Record(artifactType: string, status: Status, gatePassed: bool, checks: seq<Check>)

  function RecordOf(policy: Policy, supplied: Supplied, ctx: Context): Result<(Record, seq<Blocker>), Abort> {
    var gate := policy.artifactType;
    match supplied
    case NotSupplied =>
      Ok((Record(gate, Missing, false, []), [Blocker(gate, "artifact_missing", "required evidence was not supplied")]))
    case Unreadable =>
      Ok((Record(gate, Invalid, false, []), [Blocker(gate, "artifact_invalid", "evidence is not usable")]))
    case Unopenable => Err(ReadFault)
    case Artifact(fields) =>
      match Checks(fields, policy, ctx)
      case Err(error) => Err(error)
      case Ok(checks) =>
        var blockers := Sort(BlockerLe, FailedBlockers(gate, checks));
        Ok((Record(gate, if blockers == [] then Passed else Failed, blockers == [], checks), blockers))
  }

  /** The checks and blockers a list of checks adds to those before. */
  method RecordChecks(gate: string, added: seq<Check>, checks: seq<Check>, blockers: seq<Blocker>)
    returns (c: seq<Check>, b: seq<Blocker>)
    requires blockers == FailedBlockers(gate, checks)
    ensures c == checks + added && b == FailedBlockers(gate, c)
  {
    c, b := checks, blockers;
    for k := 0 to |added|
      invariant c == checks + added[..k] && b == FailedBlockers(gate, c)
    {
      assert (c + [added[k]])[..|c|] == c;
      assert checks + added[..k + 1] == checks + added[..k] + [added[k]];
      c := c + [added[k]];
      if !added[k].passed { b := b + [Blocker(gate, added[k].code, added[k].name)]; }
    }
    assert added[..|added|] == added;
  }

  method ArtifactRecord(policy: Policy, supplied: Supplied, ctx: Context)
    returns (r: Result<(Record, seq<Blocker>), Abort>)
    ensures r == RecordOf(policy, supplied, ctx)
  {
    hide CommonChecks, TimeChecks, LicenseChecks, EvaluateRule, BlockerLe;
    var gate := policy.artifactType;
    match supplied {
      case NotSupplied =>
        return Ok((Record(gate, Missing, false, []),
                   [Blocker(gate, "artifact_missing", "required evidence was not supplied")]));
      case Unreadable =>
        return Ok((Record(gate, Invalid, false, []), [Blocker(gate, "artifact_invalid", "evidence is not usable")]));
      case Unopenable => return Err(ReadFault);
      case Artifact(fields) =>
        var checks, blockers := RecordChecks(gate, CommonChecks(fields, gate, ctx.repo), [], []);
        var times := TimeChecks(ctx.time(Get(fields, "generated_at")), ctx.asOf, policy.maxAgeHours);
        if times.Err? { return Err(times.error); }
        checks, blockers := RecordChecks(gate, times.value, checks, blockers);
        ghost var fixed := CommonChecks(fields, gate, ctx.repo) + times.value;
        assert [] + CommonChecks(fields, gate, ctx.repo) == CommonChecks(fields, gate, ctx.repo);
        var rules := policy.rules;
        assert rules[..0] == [] && fixed + [] == fixed;
        for k := 0 to |rules|
          invariant RuleChecks(fields, rules[..k]).Ok?
          invariant checks == fixed + RuleChecks(fields, rules[..k]).value && blockers == FailedBlockers(gate, checks)
        {
          assert rules[..k + 1][..k] == rules[..k];
          var outcome := EvaluateRule(fields, rules[k]);
          if outcome.Err? {
            RefusedRule(fields, rules, k + 1);
            return Err(outcome.error);
          }
          var check := RuleCheck(rules[k], outcome.value);
          assert fixed + (RuleChecks(fields, rules[..k]).value + [check]) == checks + [check];
          checks, blockers := RecordChecks(gate, [check], checks, blockers);
        }
        assert rules[..|rules|] == rules;
        checks, blockers := RecordChecks(gate, LicenseChecks(fields, gate, ctx.digests), checks, blockers);
        assert Ok(checks) == Checks(fields, policy, ctx);
        blockers := Sort(BlockerLe, blockers);
        return Ok((Record(gate, if blockers == [] then Passed else Failed, blockers == [], checks), blockers));
    }
  }

  lemma {:induction false} RefusedRule(artifact: Fields, rules: seq<Rule>, k: nat)
    requires k <= |rules| && RuleChecks(artifact, rules[..k]).Err?
    ensures RuleChecks(artifact, rules) == RuleChecks(artifact, rules[..k])
    decreases |rules|
  {
    hide EvaluateRule;
    if k == |rules| {
      assert rules[..k] == rules;
    } else {
      assert rules[..|rules| - 1][..k] == rules[..k];
      RefusedRule(artifact, rules[..|rules| - 1], k);
    }
  }

  // ---- the repository's own gates, and the manifest

  function MissingFiles(files: seq<string>, digests: FileDigests): seq<Blocker> {
    if files == [] then []
    else
      var last := files[|files| - 1];
      MissingFiles(files[..|files| - 1], digests)
      + if last in digests && digests[last].Some? then []
        else [Blocker("repository", "required_repository_file_missing", last)]
  }

  function DirtyBlocker(repo: Repository): seq<Blocker> {
    if repo.dirty then [Blocker("repository", "repository_dirty", "final evidence requires a clean worktree")] else []
  }

  function DigestOf(reading: Reading): Option<string> { if reading.Digest? then Some(reading.sha) else None }

  function DigestsOf(files: seq<string>, read: string -> Reading): FileDigests { map f | f in files :: DigestOf(read(f)) }

  predicate AnyFaulted(files: seq<string>, read: string -> Reading) { exists f | f in files :: read(f).Faulted? }

  method RepositoryGates(files: seq<string>, repo: Repository, read: string -> Reading)
    returns (r: Result<(seq<Blocker>, FileDigests), Abort>)
    ensures r ==
      if AnyFaulted(files, read) then Err(ReadFault)
      else Ok((MissingFiles(files, DigestsOf(files, read)) + DirtyBlocker(repo), DigestsOf(files, read)))
  {
    var blockers: seq<Blocker>, digests: FileDigests := [], map[];
    ghost var all := DigestsOf(files, read);
    assert files[..0] == [];
    for k := 0 to |files|
      invariant digests == DigestsOf(files[..k], read) && blockers == MissingFiles(files[..k], all)
      invariant !AnyFaulted(files[..k], read)
    {
      assert files[..k + 1] == files[..k] + [files[k]] && files[..k + 1][..k] == files[..k];
      var reading := read(files[k]);
      if reading.Faulted? {
        assert files[k] in files;
        return Err(ReadFault);
      }
      digests := digests[files[k] := DigestOf(reading)];
      if reading.Unusable? {
        blockers := blockers + [Blocker("repository", "required_repository_file_missing", files[k])];
      }
    }
    assert files[..|files|] == files;
    assert MissingFiles(files, all) + [] == MissingFiles(files, all);
    if repo.dirty {
      blockers := blockers + [Blocker("repository", "repository_dirty", "final evidence requires a clean worktree")];
    }
    return Ok((blockers, digests));
  }

  function Records(policies: seq<Policy>, supplied: string -> Supplied, ctx: Context)
    : Result<(seq<Record>, seq<Blocker>), Abort>
  {
    if policies == [] then Ok(([], []))
    else
      var last := policies[|policies| - 1];
      match Records(policies[..|policies| - 1], supplied, ctx)
      case Err(error) => Err(error)
      case Ok(before) =>
        match RecordOf(last, supplied(last.artifactType), ctx)
        case Err(error) => Err(error)
        case Ok(record) => Ok((before.0 + [record.0], before.1 + record.1))
  }

  datatype Manifest = Manifest(
    records: seq<Record>, blockers: seq<Blocker>, releaseReady: bool, status: string, gatesPassed: nat,
    gatesRequired: nat, blockerCount: nat)

  function CountPassed(records: seq<Record>): nat {
    if records == [] then 0
    else CountPassed(records[..|records| - 1]) + if records[|records| - 1].gatePassed then 1 else 0
  }

  function ManifestOf(records: seq<Record>, blockers: seq<Blocker>, mode: string): Manifest {
    var sorted := Sort(BlockerLe, blockers);
    var ready := sorted == [];
    Manifest(records, sorted, mode == "final" && ready,
             if mode == "final" then (if ready then "pass" else "fail")
             else if ready then "pre_release_ready_for_final" else "pre_release_blocked",
             CountPassed(records), |records|, |sorted|)
  }

  /** What is known of the repository: the files it has to hold, its state, and how to read a file and a timestamp. */
  datatype Evidence = Evidence(
    files: seq<string>, repo: Repository, read: string -> Reading, asOf: int, time: Value -> Timestamp)

  function ContextOf(e: Evidence): Context { Context(e.repo, DigestsOf(e.files, e.read), e.asOf, e.time) }

  function RepositoryBlockers(e: Evidence): seq<Blocker> {
    MissingFiles(e.files, DigestsOf(e.files, e.read)) + DirtyBlocker(e.repo)
  }

  /** The manifest, or what kept it from being built. */
  function Build(policies: seq<Policy>, supplied: string -> Supplied, e: Evidence, mode: string): Result<Manifest, Abort> {
    if AnyFaulted(e.files, e.read) then Err(ReadFault)
    else
      match Records(policies, supplied, ContextOf(e))
      case Err(error) => Err(error)
      case Ok(all) => Ok(ManifestOf(all.0, RepositoryBlockers(e) + all.1, mode))
  }

  method BuildManifest(policies: seq<Policy>, supplied: string -> Supplied, e: Evidence, mode: string)
    returns (r: Result<Manifest, Abort>)
    ensures r == Build(policies, supplied, e, mode)
  {
    hide RecordOf, MissingFiles, DigestsOf, DirtyBlocker, AnyFaulted;
    var gates := RepositoryGates(e.files, e.repo, e.read);
    if gates.Err? { return Err(gates.error); }
    var (own, digests) := gates.value;
    var ctx := Context(e.repo, digests, e.asOf, e.time);
    var records: seq<Record>, blockers := [], own;
    var passed: nat := 0;
    assert policies[..0] == [];
    for k := 0 to |policies|
      invariant Records(policies[..k], supplied, ctx).Ok?
      invariant records == Records(policies[..k], supplied, ctx).value.0 && passed == CountPassed(records)
      invariant blockers == own + Records(policies[..k], supplied, ctx).value.1
    {
      assert policies[..k + 1][..k] == policies[..k];
      var outcome := ArtifactRecord(policies[k], supplied(policies[k].artifactType), ctx);
      if outcome.Err? {
        RefusedRecord(policies, supplied, ctx, k + 1);
        return Err(outcome.error);
      }
      assert own + (Records(policies[..k], supplied, ctx).value.1 + outcome.value.1) == blockers + outcome.value.1;
      assert (records + [outcome.value.0])[..|records|] == records;
      records, blockers := records + [outcome.value.0], blockers + outcome.value.1;
      if outcome.value.0.gatePassed { passed := passed + 1; }
    }
    assert policies[..|policies|] == policies;
    return Ok(ManifestOf(records, blockers, mode).(gatesPassed := passed));
  }

  lemma {:induction false} RefusedRecord(policies: seq<Policy>, supplied: string -> Supplied, ctx: Context, k: nat)
    requires k <= |policies| && Records(policies[..k], supplied, ctx).Err?
    ensures Records(policies, supplied, ctx) == Records(policies[..k], supplied, ctx)
    decreases |policies|
  {
    hide RecordOf;
    if k == |policies| {
      assert policies[..k] == policies;
    } else {
      assert policies[..|policies| - 1][..k] == policies[..k];
      RefusedRecord(policies[..|policies| - 1], supplied, ctx, k);
    }
  }
}
