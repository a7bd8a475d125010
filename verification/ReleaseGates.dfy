/** What release evidence amounts to: exact accounting of blockers, and what a ready release has shown. */
module ReleaseGates {
  import opened Prelude
  import opened Sorting
  import opened Json
  import opened ReleaseEvidence

  function FailedCount(checks: seq<Check>): nat {
    if checks == [] then 0
    else FailedCount(checks[..|checks| - 1]) + if checks[|checks| - 1].passed then 0 else 1
  }

  lemma {:induction false} OneBlockerEach(gate: string, checks: seq<Check>)
    ensures |FailedBlockers(gate, checks)| == FailedCount(checks)
    ensures FailedCount(checks) == 0 <==> forall c | c in checks :: c.passed
    ensures forall b :: b in FailedBlockers(gate, checks) <==>
      exists c :: c in checks && !c.passed && b == Blocker(gate, c.code, c.name)
  {
    if checks != [] {
      var n := |checks| - 1;
      OneBlockerEach(gate, checks[..n]);
      assert checks == checks[..n] + [checks[n]];
      assert forall c :: c in checks <==> c in checks[..n] || c == checks[n];
    }
  }

  /** An artifact that is not there or not readable blocks once, any other once for each failed check. */
  function Faults(record: Record): nat {
    if record.status.Missing? || record.status.Invalid? then 1 else FailedCount(record.checks)
  }

  lemma BlockerSort(blockers: seq<Blocker>)
    ensures |Sort(BlockerLe, blockers)| == |blockers|
    ensures multiset(Sort(BlockerLe, blockers)) == multiset(blockers)
  {
    SortPermutes(BlockerLe, blockers);
  }

  /** A gate passes exactly when every check of a readable artifact has passed. */
  lemma GatePassed(policy: Policy, supplied: Supplied, ctx: Context)
    requires RecordOf(policy, supplied, ctx).Ok?
    ensures
      var (record, blockers) := RecordOf(policy, supplied, ctx).value;
      && |blockers| == Faults(record)
      && (record.gatePassed <==> supplied.Artifact? && forall c | c in record.checks :: c.passed)
      && (record.gatePassed <==> record.status.Passed?) && (record.gatePassed <==> blockers == [])
  {
    hide BlockerLe, CommonChecks, TimeChecks, LicenseChecks, RuleChecks;
    if supplied.Artifact? {
      var checks := Checks(supplied.fields, policy, ctx).value;
      OneBlockerEach(policy.artifactType, checks);
      BlockerSort(FailedBlockers(policy.artifactType, checks));
      hide Checks;
    }
  }

  function TotalFaults(records: seq<Record>): nat {
    if records == [] then 0 else TotalFaults(records[..|records| - 1]) + Faults(records[|records| - 1])
  }

  lemma RecordsStep(policies: seq<Policy>, supplied: string -> Supplied, ctx: Context)
    requires policies != [] && Records(policies, supplied, ctx).Ok?
    ensures
      var n := |policies| - 1;
      var before, last := Records(policies[..n], supplied, ctx), RecordOf(policies[n], supplied(policies[n].artifactType), ctx);
      && before.Ok? && last.Ok?
      && Records(policies, supplied, ctx).value == (before.value.0 + [last.value.0], before.value.1 + last.value.1)
  {
    hide RecordOf;
  }

  lemma {:induction false} RecordFaults(policies: seq<Policy>, supplied: string -> Supplied, ctx: Context)
    requires Records(policies, supplied, ctx).Ok?
    ensures
      var (records, blockers) := Records(policies, supplied, ctx).value;
      && |records| == |policies| && |blockers| == TotalFaults(records)
      && (blockers == [] <==> forall r | r in records :: r.gatePassed)
  {
    if policies != [] {
      RecordsStep(policies, supplied, ctx);
      hide RecordOf, Faults, Records;
      var n := |policies| - 1;
      RecordFaults(policies[..n], supplied, ctx);
      GatePassed(policies[n], supplied(policies[n].artifactType), ctx);
      var before := Records(policies[..n], supplied, ctx).value.0;
      var record := RecordOf(policies[n], supplied(policies[n].artifactType), ctx).value.0;
      assert (before + [record])[..n] == before;
      assert forall r :: r in before + [record] <==> r in before || r == record;
    }
  }

  /** The record of each policy is made from the artifact supplied for it. */
  lemma {:induction false} RecordAt(policies: seq<Policy>, supplied: string -> Supplied, ctx: Context, k: nat)
    requires Records(policies, supplied, ctx).Ok? && k < |policies|
    ensures
      var outcome := RecordOf(policies[k], supplied(policies[k].artifactType), ctx);
      var records := Records(policies, supplied, ctx).value.0;
      |records| == |policies| && outcome.Ok? && records[k] == outcome.value.0
  {
    RecordsStep(policies, supplied, ctx);
    RecordFaults(policies, supplied, ctx);
    hide RecordOf, Records;
    if k < |policies| - 1 { RecordAt(policies[..|policies| - 1], supplied, ctx, k); }
  }

  predicate Absent(e: Evidence, file: string) { !e.read(file).Digest? }

  function AbsentCount(e: Evidence, files: seq<string>): nat {
    if files == [] then 0
    else AbsentCount(e, files[..|files| - 1]) + if Absent(e, files[|files| - 1]) then 1 else 0
  }

  lemma {:induction false} MissingCount(e: Evidence, files: seq<string>, digests: FileDigests)
    requires forall f | f in files :: f in digests && digests[f] == DigestOf(e.read(f))
    ensures |MissingFiles(files, digests)| == AbsentCount(e, files)
    ensures AbsentCount(e, files) == 0 <==> forall f | f in files :: !Absent(e, f)
  {
    if files != [] {
      var n := |files| - 1;
      assert files == files[..n] + [files[n]];
      MissingCount(e, files[..n], digests);
      assert forall f :: f in files <==> f in files[..n] || f == files[n];
    }
  }

  function CountStatus(records: seq<Record>, s: Status): nat {
    if records == [] then 0
    else CountStatus(records[..|records| - 1], s) + if records[|records| - 1].status == s then 1 else 0
  }

  function AllFailed(records: seq<Record>): nat {
    if records == [] then 0
    else AllFailed(records[..|records| - 1]) + FailedCount(records[|records| - 1].checks)
  }

  /** Faults are failed checks, missing artifacts and invalid ones. */
  lemma {:induction false} FaultKinds(policies: seq<Policy>, supplied: string -> Supplied, ctx: Context)
    requires Records(policies, supplied, ctx).Ok?
    ensures
      var records := Records(policies, supplied, ctx).value.0;
      TotalFaults(records) == AllFailed(records) + CountStatus(records, Missing) + CountStatus(records, Invalid)
  {
    if policies != [] {
      var n := |policies| - 1;
      FaultKinds(policies[..n], supplied, ctx);
      NoChecks(policies[n], supplied(policies[n].artifactType), ctx);
      hide RecordOf;
      var before := Records(policies[..n], supplied, ctx).value.0;
      var record := RecordOf(policies[n], supplied(policies[n].artifactType), ctx).value.0;
      assert (before + [record])[..|before|] == before;
    }
  }

  lemma NoChecks(policy: Policy, supplied: Supplied, ctx: Context)
    requires RecordOf(policy, supplied, ctx).Ok?
    ensures
      var record := RecordOf(policy, supplied, ctx).value.0;
      record.status.Missing? || record.status.Invalid? ==> record.checks == []
  {
    hide Checks, BlockerLe;
  }

  /** Every blocker is a failed check, an artifact missing or invalid, a file missing, or the dirty worktree. */
  lemma BlockerAccounting(policies: seq<Policy>, supplied: string -> Supplied, e: Evidence, mode: string)
    requires Build(policies, supplied, e, mode).Ok?
    ensures
      var m, all := Build(policies, supplied, e, mode).value, Records(policies, supplied, ContextOf(e));
      && all.Ok? && m.records == all.value.0 && |m.records| == |policies|
      && m.blockerCount == |m.blockers|
      && |m.blockers| == AllFailed(m.records) + CountStatus(m.records, Missing) + CountStatus(m.records, Invalid)
                         + AbsentCount(e, e.files) + (if e.repo.dirty then 1 else 0)
      && multiset(m.blockers) == multiset(RepositoryBlockers(e) + all.value.1)
  {
    hide RecordOf, BlockerLe, Records;
    var (records, blockers) := Records(policies, supplied, ContextOf(e)).value;
    BlockerSort(RepositoryBlockers(e) + blockers);
    RecordFaults(policies, supplied, ContextOf(e));
    FaultKinds(policies, supplied, ContextOf(e));
    MissingCount(e, e.files, DigestsOf(e.files, e.read));
  }

  /** The artifact is a passing one of its type, from a recorded command, on exactly this clean commit. */
  predicate Identified(artifact: Fields, artifactType: string, repo: Repository) {
    var command, origin := Get(artifact, "command"), Get(artifact, "repository");
    && Get(artifact, "schema_version") == Str(SCHEMA_VERSION())
    && Get(artifact, "artifact_type") == Str(artifactType) && Get(artifact, "status") == Str("pass")
    && CommandRecorded(Sub(command, "argv")) && EqualsInt(Sub(command, "exit_code"), 0)
    && Sub(origin, "git_commit") == Str(repo.commit) && Sub(origin, "git_tree") == Str(repo.tree)
    && Sub(origin, "uv_lock_sha256") == Str(repo.lock) && Sub(origin, "git_dirty") == Bool(false)
  }

  /** What an artifact has to show for its gate. */
  predicate Acceptable(artifact: Fields, policy: Policy, ctx: Context) {
    var generated := ctx.time(Get(artifact, "generated_at"));
    && Identified(artifact, policy.artifactType, ctx.repo)
    && generated.Instant? && generated.value - FUTURE_TOLERANCE <= ctx.asOf
    && ctx.asOf <= generated.value + policy.maxAgeHours * MICROSECONDS_PER_HOUR
    && (forall r | r in policy.rules :: EvaluateRule(artifact, r) == Ok(true))
    && (policy.artifactType == "license_review" ==> LicenseBound(artifact, ctx.digests))
  }

  predicate AllPassed(checks: seq<Check>) { forall c | c in checks :: c.passed }

  lemma AllPassedConcat(a: seq<Check>, b: seq<Check>)
    ensures AllPassed(a + b) <==> AllPassed(a) && AllPassed(b)
  {
    assert forall c :: c in a + b <==> c in a || c in b;
  }

  lemma {:induction false} RulesPassed(artifact: Fields, rules: seq<Rule>)
    requires RuleChecks(artifact, rules).Ok?
    ensures AllPassed(RuleChecks(artifact, rules).value) <==> forall r | r in rules :: EvaluateRule(artifact, r) == Ok(true)
  {
    hide EvaluateRule;
    if rules != [] {
      var n := |rules| - 1;
      RulesPassed(artifact, rules[..n]);
      var before, last := RuleChecks(artifact, rules[..n]).value, EvaluateRule(artifact, rules[n]).value;
      AllPassedConcat(before, [RuleCheck(rules[n], last)]);
      assert forall r :: r in rules <==> r in rules[..n] || r == rules[n];
    }
  }

  lemma {:induction false} PassedAt(checks: seq<Check>)
    ensures AllPassed(checks) <==> forall i | 0 <= i < |checks| :: checks[i].passed
  {
    assert forall i | 0 <= i < |checks| :: checks[i] in checks;
  }

  lemma CommonPassed(artifact: Fields, artifactType: string, repo: Repository)
    ensures AllPassed(CommonChecks(artifact, artifactType, repo)) <==> Identified(artifact, artifactType, repo)
  {
    hide CommandRecorded, EqualsInt, SCHEMA_VERSION, Get, Sub, AllPassed;
    var c := CommonChecks(artifact, artifactType, repo);
    PassedAt(c);
    assert (forall i | 0 <= i < |c| :: c[i].passed) <==>
      && c[0].passed && c[1].passed && c[2].passed && c[3].passed && c[4].passed && c[5].passed && c[6].passed
      && c[7].passed && c[8].passed;
  }

  /** The checks of an artifact all pass exactly when it shows everything that is asked of it. */
  lemma ChecksMeaning(artifact: Fields, policy: Policy, ctx: Context)
    requires Checks(artifact, policy, ctx).Ok?
    ensures AllPassed(Checks(artifact, policy, ctx).value) <==> Acceptable(artifact, policy, ctx)
  {
    var common := CommonChecks(artifact, policy.artifactType, ctx.repo);
    var times := TimeChecks(ctx.time(Get(artifact, "generated_at")), ctx.asOf, policy.maxAgeHours).value;
    var rules := RuleChecks(artifact, policy.rules).value;
    var license := LicenseChecks(artifact, policy.artifactType, ctx.digests);
    TimesPassed(ctx.time(Get(artifact, "generated_at")), ctx.asOf, policy.maxAgeHours);
    LicensePassed(artifact, policy.artifactType, ctx.digests);
    CommonPassed(artifact, policy.artifactType, ctx.repo);
    RulesPassed(artifact, policy.rules);
    AllPassedConcat(common, times);
    AllPassedConcat(common + times, rules);
    AllPassedConcat(common + times + rules, license);
    hide Identified, CommonChecks, TimeChecks, RuleChecks, LicenseChecks, EvaluateRule, LicenseBound, CommandRecorded, EqualsInt, Get,
         Sub, SCHEMA_VERSION, AllPassed;
  }

  lemma TimesPassed(generated: Timestamp, asOf: int, maxAgeHours: int)
    requires TimeChecks(generated, asOf, maxAgeHours).Ok?
    ensures AllPassed(TimeChecks(generated, asOf, maxAgeHours).value) <==>
      && generated.Instant? && generated.value - FUTURE_TOLERANCE <= asOf
      && asOf <= generated.value + maxAgeHours * MICROSECONDS_PER_HOUR
  {
    var checks := TimeChecks(generated, asOf, maxAgeHours).value;
    assert checks[0] in checks;
    if generated.Instant? { assert checks[1] in checks; }
  }

  lemma LicensePassed(artifact: Fields, artifactType: string, digests: FileDigests)
    ensures AllPassed(LicenseChecks(artifact, artifactType, digests)) <==>
      (artifactType == "license_review" ==> LicenseBound(artifact, digests))
  {
    hide LicenseBound;
    var checks := LicenseChecks(artifact, artifactType, digests);
    if checks != [] { assert checks[0] in checks; }
  }

  /** A release is ready exactly when the mode is final, the worktree clean, every required file there, and every policy
      met by an artifact that shows everything asked of it. */
  lemma ReleaseReady(policies: seq<Policy>, supplied: string -> Supplied, e: Evidence, mode: string)
    requires Build(policies, supplied, e, mode).Ok?
    ensures
      var m := Build(policies, supplied, e, mode).value;
      && (m.releaseReady <==> mode == "final" && m.blockerCount == 0)
      && (m.releaseReady <==>
            && mode == "final" && !e.repo.dirty && (forall f | f in e.files :: !Absent(e, f))
            && forall k | 0 <= k < |policies| :: Met(policies[k], supplied(policies[k].artifactType), ContextOf(e)))
  {
    hide RecordOf, BlockerLe, Records, Met;
    var (records, blockers) := Records(policies, supplied, ContextOf(e)).value;
    BlockerSort(RepositoryBlockers(e) + blockers);
    RepositoryClean(e);
    GatesMet(policies, supplied, ContextOf(e));
    hide RepositoryBlockers, ContextOf, Absent, AnyFaulted;
  }

  lemma RepositoryClean(e: Evidence)
    ensures RepositoryBlockers(e) == [] <==> !e.repo.dirty && forall f | f in e.files :: !Absent(e, f)
  {
    MissingCount(e, e.files, DigestsOf(e.files, e.read));
  }

  lemma GatesMet(policies: seq<Policy>, supplied: string -> Supplied, ctx: Context)
    requires Records(policies, supplied, ctx).Ok?
    ensures Records(policies, supplied, ctx).value.1 == [] <==>
      forall k | 0 <= k < |policies| :: Met(policies[k], supplied(policies[k].artifactType), ctx)
  {
    hide RecordOf, Records, Met;
    var records := Records(policies, supplied, ctx).value.0;
    RecordFaults(policies, supplied, ctx);
    forall k | 0 <= k < |records|
      ensures records[k].gatePassed <==> Met(policies[k], supplied(policies[k].artifactType), ctx)
    {
      RecordAt(policies, supplied, ctx, k);
      GateMeaning(policies[k], supplied(policies[k].artifactType), ctx);
    }
    assert (forall r | r in records :: r.gatePassed) <==> forall k | 0 <= k < |records| :: records[k].gatePassed;
  }

  predicate Met(policy: Policy, supplied: Supplied, ctx: Context) {
    supplied.Artifact? && Acceptable(supplied.fields, policy, ctx)
  }

  lemma GateMeaning(policy: Policy, supplied: Supplied, ctx: Context)
    requires RecordOf(policy, supplied, ctx).Ok?
    ensures RecordOf(policy, supplied, ctx).value.0.gatePassed <==> Met(policy, supplied, ctx)
  {
    GatePassed(policy, supplied, ctx);
    if supplied.Artifact? {
      hide BlockerLe, Acceptable;
      assert Checks(supplied.fields, policy, ctx).Ok?;
      ChecksMeaning(supplied.fields, policy, ctx);
      hide Checks;
    }
  }

  // ---- what the rules ask for

  function Texts(names: seq<string>): seq<Value> {
    seq(|names|, i requires 0 <= i < |names| => Str(names[i]))
  }

  lemma TextElements(names: seq<string>)
    ensures SetOf(List(Texts(names))) == Some(set n | n in names :: TextElement(n))
  {
    var items := Texts(names);
    forall n | n in names ensures Str(n) in items {
      var i :| 0 <= i < |names| && names[i] == n;
      assert items[i] == Str(n);
    }
    assert forall v | v in items :: v.Str? && v.s in names;
    assert Elements(items) == set n | n in names :: TextElement(n);
  }

  /** A list contains the expected texts exactly when each of them is among its items. */
  lemma ContainsMeaning(actual: Value, names: seq<string>)
    ensures Passes(actual, "contains", List(Texts(names))) <==>
      && actual.List? && AllHashable(actual.items) && forall n | n in names :: Str(n) in actual.items
  {
    TextElements(names);
    if actual.List? && AllHashable(actual.items) {
      forall n ensures TextElement(n) in Elements(actual.items) <==> Str(n) in actual.items {
        if TextElement(n) in Elements(actual.items) {
          var v :| v in actual.items && ElementOf(v) == TextElement(n);
          assert v == Str(n);
        }
        if Str(n) in actual.items { assert ElementOf(Str(n)) == TextElement(n); }
      }
    }
  }

  /** A bound is met by numbers only, never by a truth value. */
  lemma MinimumMeaning(actual: Value, bound: Value)
    requires bound.Int? || bound.Float?
    ensures
      var limit := if bound.Int? then bound.n as real else bound.x;
      && (Passes(actual, "min", bound) <==>
            (actual.Int? && actual.n as real >= limit) || (actual.Float? && actual.x >= limit) || actual == Infinite(true))
      && (Passes(actual, "max", bound) <==>
            (actual.Int? && actual.n as real <= limit) || (actual.Float? && actual.x <= limit) || actual == Infinite(false))
  {
  }

  lemma SameMembers<T(!new)>(a: seq<T>, b: seq<T>)
    requires NoRepeat(a) && NoRepeat(b) && forall x :: x in a <==> x in b
    ensures multiset(a) == multiset(b)
  {
    assert ToSet(a) == ToSet(b);
    NoRepeatSet(a);
    NoRepeatSet(b);
  }

  lemma SameLength<T(!new)>(a: seq<T>, b: seq<T>)
    requires multiset(a) == multiset(b)
    ensures |a| == |b| && forall x :: x in a <==> x in b
  {
    assert |multiset(a)| == |multiset(b)|;
    forall x ensures x in a <==> x in b {
      assert x in multiset(a) <==> x in multiset(b);
    }
  }

  function ElementSeq(items: seq<Value>): seq<Element>
    requires AllHashable(items)
  {
    seq(|items|, i requires 0 <= i < |items| => assert items[i] in items; ElementOf(items[i]))
  }

  lemma {:induction false} ElementsRepeat(items: seq<Value>)
    requires AllHashable(items)
    ensures ToSet(ElementSeq(items)) == Elements(items)
    ensures NoRepeat(ElementSeq(items)) && (forall v | v in items :: v.Str?) ==> NoRepeat(items)
    ensures NoRepeat(items) && (forall v | v in items :: v.Str?) ==> NoRepeat(ElementSeq(items))
  {
    if items != [] {
      var n := |items| - 1;
      assert items == items[..n] + [items[n]] && items[n] in items;
      ElementsRepeat(items[..n]);
      assert ElementSeq(items)[..n] == ElementSeq(items[..n]);
      assert ElementSeq(items) == ElementSeq(items[..n]) + [ElementOf(items[n])];
      assert Elements(items) == Elements(items[..n]) + {ElementOf(items[n])};
      assert ElementOf(items[n]) in ElementSeq(items[..n]) <==> ElementOf(items[n]) in Elements(items[..n]) by {
        assert ElementOf(items[n]) in ElementSeq(items[..n]) <==> ElementOf(items[n]) in ToSet(ElementSeq(items[..n]));
      }
    }
  }

  lemma {:induction false} TextsRepeat(names: seq<string>)
    ensures NoRepeat(names) ==> NoRepeat(Texts(names))
    ensures forall s :: Str(s) in Texts(names) <==> s in names
  {
    if names != [] {
      var n := |names| - 1;
      assert names == names[..n] + [names[n]];
      TextsRepeat(names[..n]);
      assert Texts(names)[..n] == Texts(names[..n]);
      assert Texts(names) == Texts(names[..n]) + [Str(names[n])];
    }
  }

  /** A list has exactly the expected texts when it holds the same texts in some order, none of them twice. */
  lemma SetEqMeaning(actual: Value, names: seq<string>)
    requires NoRepeat(names)
    ensures Passes(actual, "set_eq", List(Texts(names))) <==> actual.List? && multiset(actual.items) == multiset(Texts(names))
  {
    TextElements(names);
    TextsRepeat(names);
    hide Texts;
    if Passes(actual, "set_eq", List(Texts(names))) {
      PassedSameTexts(actual.items, names);
    }
    if actual.List? && multiset(actual.items) == multiset(Texts(names)) {
      SameTextsPass(actual.items, names);
    }
  }

  lemma PassedSameTexts(items: seq<Value>, names: seq<string>)
    requires AllHashable(items) && |items| == |Elements(items)| && NoRepeat(Texts(names))
    requires Elements(items) == set n | n in names :: TextElement(n)
    requires forall s :: Str(s) in Texts(names) <==> s in names
    ensures multiset(items) == multiset(Texts(names))
  {
    forall v | v in items ensures v.Str? && v.s in names {
      assert ElementOf(v) in Elements(items);
    }
    forall s ensures s in names <==> Str(s) in items {
      if s in names {
        assert TextElement(s) in Elements(items);
        var v :| v in items && ElementOf(v) == TextElement(s);
      }
    }
    ElementsRepeat(items);
    NoRepeatSet(ElementSeq(items));
    hide Elements;
    forall v ensures v in items <==> v in Texts(names) {
      assert v in Texts(names) ==> v.Str?;
    }
    SameMembers(items, Texts(names));
  }

  lemma SameTextsPass(items: seq<Value>, names: seq<string>)
    requires multiset(items) == multiset(Texts(names)) && NoRepeat(Texts(names))
    ensures AllHashable(items) && |items| == |Elements(items)| && Elements(items) == set n | n in names :: TextElement(n)
  {
    SameLength(items, Texts(names));
    TextElements(names);
    assert forall v | v in Texts(names) :: v.Str?;
    assert AllHashable(Texts(names)) && AllHashable(items);
    assert Elements(items) == Elements(Texts(names));
    ElementsRepeat(Texts(names));
    NoRepeatSet(ElementSeq(Texts(names)));
    assert |ElementSeq(Texts(names))| == |Texts(names)|;
  }

  // ---- when a manifest can be built at all

  predicate WellFormed(rule: Rule) { if rule.operation == "eq_path" then rule.expected.Str? else Supported(rule.operation) }

  lemma RuleEvaluates(artifact: Fields, rule: Rule)
    ensures EvaluateRule(artifact, rule).Ok? <==> WellFormed(rule)
  {
    hide Passes, GetPath, Supported;
  }

  /** Only an unsupported operation, or a path that is none, stops the evaluation of rules. */
  lemma {:induction false} RulesEvaluate(artifact: Fields, rules: seq<Rule>)
    ensures RuleChecks(artifact, rules).Ok? <==> forall r | r in rules :: WellFormed(r)
  {
    hide EvaluateRule, WellFormed;
    if rules != [] {
      var n := |rules| - 1;
      RulesEvaluate(artifact, rules[..n]);
      RuleEvaluates(artifact, rules[n]);
      assert RuleChecks(artifact, rules).Ok? <==> RuleChecks(artifact, rules[..n]).Ok? && WellFormed(rules[n]);
      hide RuleChecks;
      assert rules == rules[..n] + [rules[n]];
      assert forall r :: r in rules <==> r in rules[..n] || r == rules[n];
    }
  }

  /** Nothing about the artifact stops the evaluation of its policy: its timestamp is none or within the calendar, the
      age limit it is then compared with is a duration, and the rules can be evaluated. */
  predicate Evaluable(artifact: Fields, policy: Policy, ctx: Context) {
    var generated := ctx.time(Get(artifact, "generated_at"));
    && !generated.OutsideCalendar? && (generated.Instant? ==> Representable(policy.maxAgeHours))
    && forall r | r in policy.rules :: WellFormed(r)
  }

  predicate Answerable(policy: Policy, supplied: Supplied, ctx: Context) {
    !supplied.Unopenable? && (supplied.Artifact? ==> Evaluable(supplied.fields, policy, ctx))
  }

  lemma RecordMade(policy: Policy, supplied: Supplied, ctx: Context)
    ensures RecordOf(policy, supplied, ctx).Ok? <==> Answerable(policy, supplied, ctx)
  {
    hide WellFormed, CommonChecks, LicenseChecks, BlockerLe, RuleChecks;
    if supplied.Artifact? { RulesEvaluate(supplied.fields, policy.rules); }
  }

  lemma {:induction false} RecordsMade(policies: seq<Policy>, supplied: string -> Supplied, ctx: Context)
    ensures Records(policies, supplied, ctx).Ok? <==>
      forall p | p in policies :: Answerable(p, supplied(p.artifactType), ctx)
  {
    hide Answerable, RecordOf;
    if policies != [] {
      var n := |policies| - 1;
      RecordsMade(policies[..n], supplied, ctx);
      RecordMade(policies[n], supplied(policies[n].artifactType), ctx);
      assert forall p :: p in policies <==> p in policies[..n] || p == policies[n];
    }
  }

  /** A manifest is built exactly when no file fails to be read in an uncaught way, and the rules of every readable
      artifact can be evaluated and its timestamp stays within the calendar. */
  lemma ManifestBuilt(policies: seq<Policy>, supplied: string -> Supplied, e: Evidence, mode: string)
    ensures Build(policies, supplied, e, mode).Ok? <==>
      && !AnyFaulted(e.files, e.read)
      && forall p | p in policies :: Answerable(p, supplied(p.artifactType), ContextOf(e))
  {
    hide Answerable, Records;
    RecordsMade(policies, supplied, ContextOf(e));
  }

  const FIRST_HOUR := Str("0001-01-01T00:00:00+01:00")

  /** A readable artifact, no rule at all, and a timestamp in an hour of the first day that UTC has no name for: no
      manifest is built. */
  lemma TimestampAborts(e: Evidence, mode: string)
    requires !AnyFaulted(e.files, e.read) && e.time(FIRST_HOUR) == OutsideCalendar
    ensures
      var policy := Policy("full_tests", 168, []);
      var supplied := (name: string) => Artifact(map["generated_at" := FIRST_HOUR]);
      && (forall r | r in policy.rules :: WellFormed(r))
      && Build([policy], supplied, e, mode) == Err(TimestampOverflow)
  {
    hide CommonChecks, LicenseChecks, BlockerLe, AnyFaulted, RepositoryBlockers;
    var policy := Policy("full_tests", 168, []);
    var supplied := (name: string) => Artifact(map["generated_at" := FIRST_HOUR]);
    assert [policy][..0] == [] && Records([], supplied, ContextOf(e)).Ok?;
    assert RecordOf(policy, supplied(policy.artifactType), ContextOf(e)) == Err(TimestampOverflow);
  }
}
