/** What each verification of the promotion controller asks for, as a condition on its inputs. */
module PromotionMeaning {
  import opened Prelude
  import opened Text
  import Gate = DeploymentGate
  import Patterns
  import opened PromotionController

  predicate Identified(w: World, c: Gate.Candidate, v: Verification) {
    var commit := w.fold(c.commit);
    && Patterns.Commit(commit) && v.repository == c.repository && v.branch == c.branch
    && w.fold(v.commit) == commit && w.fold(v.checkedOut) == commit && w.fold(v.manifestCommit) == commit
    && v.commitVerified && v.clean && Who(w, v.verifiedBy) != ""
    && Who(w, v.verifiedBy) != Who(w, c.builder) && Who(w, v.verifiedBy) != Who(w, c.production)
    && w.time(v.verifiedAt).Some?
  }

  lemma IdentityMeaning(w: World, c: Gate.Candidate, v: Verification)
    ensures IdentityReasons(w, c, v) == [] <==> Identified(w, c, v)
  {
    hide Patterns.Commit, Who;
  }

  predicate ArtifactSound(w: World, a: ManifestArtifact) {
    ArtifactDenial(w.fold, a.path, a.resolved).None? && Patterns.Sha256(w.fold(a.contentSha)) && a.size >= 0
  }

  predicate ManifestSound(w: World, c: Gate.Candidate, d: Gate.Decision, v: Verification) {
    && UniquePaths(v.artifacts) && (forall a | a in v.artifacts :: ArtifactSound(w, a))
    && ManifestMatches(w, v) && InventoryMatches(c, d, v)
  }

  lemma {:induction false} ArtifactsMeaning(w: World, artifacts: seq<ManifestArtifact>)
    ensures AllArtifactReasons(w, artifacts) == [] <==> forall a | a in artifacts :: ArtifactSound(w, a)
  {
    hide ArtifactDenial, Patterns.Sha256;
    if artifacts != [] {
      var n := |artifacts| - 1;
      ArtifactsMeaning(w, artifacts[..n]);
      OneArtifactMeaning(w, artifacts[n]);
      hide ArtifactReasons, ArtifactSound;
      assert artifacts == artifacts[..n] + [artifacts[n]];
      assert forall a :: a in artifacts <==> a in artifacts[..n] || a == artifacts[n];
    }
  }

  lemma OneArtifactMeaning(w: World, a: ManifestArtifact)
    ensures ArtifactReasons(w, a) == [] <==> ArtifactSound(w, a)
  {
    hide ArtifactDenial, Patterns.Sha256;
  }

  lemma ManifestMeaning(w: World, c: Gate.Candidate, d: Gate.Decision, v: Verification)
    ensures ManifestReasons(w, c, d, v) == [] <==> ManifestSound(w, c, d, v)
  {
    ArtifactsMeaning(w, v.artifacts);
    hide UniquePaths, AllArtifactReasons, ArtifactSound, ManifestMatches, InventoryMatches;
  }

  /** A current human approval of exactly this action on exactly this build and manifest. */
  predicate Authorized(w: World, c: Gate.Candidate, manifestSha: string, given: Option<Authorization>, action: Action,
                       prepared: Option<int>) {
    && given.Some?
    && var a := given.value;
       && Strip(a.id) != "" && Strip(a.actor) != "" && Strip(a.reason) != "" && Strip(a.reference) != ""
       && a.human && a.approve && a.action == action
       && w.fold(a.commit) == w.fold(c.commit) && a.previousBuild == PreviousBuild(c.rollback)
       && w.fold(a.manifestSha) == w.fold(manifestSha)
       && Who(w, a.actor) != Who(w, c.builder) && Who(w, a.actor) != Who(w, c.production)
       && w.time(a.authorizedAt).Some? && w.time(a.expiresAt).Some?
       && w.time(a.authorizedAt).value <= w.time(a.expiresAt).value
       && (prepared.Some? ==> w.time(a.authorizedAt).value <= prepared.value <= w.time(a.expiresAt).value)
       && Opaque(a.reference)
  }

  lemma AuthorizationMeaning(w: World, c: Gate.Candidate, manifestSha: string, given: Option<Authorization>,
                             action: Action, prepared: Option<int>)
    ensures AuthorizationReasons(w, c, manifestSha, given, action, prepared) == [] <==>
      Authorized(w, c, manifestSha, given, action, prepared)
  {
    if given.Some? { TimeMeaning(w, given.value, prepared); }
    hide Strip, Who, PreviousBuild, Opaque, TimeReasons;
  }

  lemma TimeMeaning(w: World, a: Authorization, prepared: Option<int>)
    ensures TimeReasons(w, a, prepared) == [] <==>
      && w.time(a.authorizedAt).Some? && w.time(a.expiresAt).Some?
      && w.time(a.authorizedAt).value <= w.time(a.expiresAt).value
      && (prepared.Some? ==> w.time(a.authorizedAt).value <= prepared.value <= w.time(a.expiresAt).value)
  {
  }

  predicate Preflight(w: World, x: Expected, results: seq<Evidence>) {
    results != [] && AllSound(w, x, results) && DifferentNames(results)
  }

  /** Every result is valid, passed, and named differently from those before it. */
  predicate SmokeFine(w: World, x: Expected, results: seq<Evidence>) {
    results == []
    || (SmokeFine(w, x, results[..|results| - 1])
        && SmokePasses(w, x, results[..|results| - 1], results[|results| - 1]))
  }

  lemma {:induction false} SmokeReasonsMeaning(w: World, x: Expected, results: seq<Evidence>)
    ensures SmokeReasons(w, x, results) == [] <==> SmokeFine(w, x, results)
    ensures SmokeReasons(w, x, results) == [] <==> AllPassed(SmokeChecks(w, x, results))
  {
    if results != [] {
      var n := |results| - 1;
      var check := Label("preflight_smoke:", results[n], SmokePasses(w, x, results[..n], results[n]));
      SmokeReasonsMeaning(w, x, results[..n]);
      assert Repeats(results[..n], results[n].name) ==> !SmokePasses(w, x, results[..n], results[n]);
      AllPassedConcat(SmokeChecks(w, x, results[..n]), [check]);
      assert AllPassed([check]) <==> check.passed by { assert check in [check]; }
      hide SmokePasses, Repeats, AllPassed;
    }
  }

  predicate AllPassed(checks: seq<AuditCheck>) { forall c | c in checks :: c.passed }

  lemma AllPassedConcat(a: seq<AuditCheck>, b: seq<AuditCheck>)
    ensures AllPassed(a + b) <==> AllPassed(a) && AllPassed(b)
  {
    assert forall c :: c in a + b <==> c in a || c in b;
  }

  lemma PreflightMeaning(w: World, x: Expected, results: seq<Evidence>)
    ensures PreflightReasons(w, x, results) == [] <==> Preflight(w, x, results)
    ensures PreflightReasons(w, x, results) == [] ==> AllPassed(SmokeChecks(w, x, results))
  {
    SmokeReasonsMeaning(w, x, results);
    FineMeaning(w, x, results);
    hide SmokeReasons, SmokeFine, AllSound, DifferentNames;
  }

  predicate AllSound(w: World, x: Expected, results: seq<Evidence>) {
    forall e | e in results :: EvidenceValid(w, e, x.build, x.manifestSha, x.notAfter) && e.passed
  }

  predicate DifferentNames(results: seq<Evidence>) {
    forall i, j | 0 <= i < j < |results| :: results[i].name != results[j].name
  }

  lemma {:induction false} FineMeaning(w: World, x: Expected, results: seq<Evidence>)
    ensures SmokeFine(w, x, results) <==> AllSound(w, x, results) && DifferentNames(results)
  {
    hide EvidenceValid;
    if results != [] {
      var n := |results| - 1;
      assert results == results[..n] + [results[n]];
      FineMeaning(w, x, results[..n]);
      assert forall e :: e in results <==> e in results[..n] || e == results[n];
      LastName(results);
      hide DifferentNames, Repeats;
    }
  }

  lemma LastName(results: seq<Evidence>)
    requires results != []
    ensures
      var n := |results| - 1;
      DifferentNames(results) <==> DifferentNames(results[..n]) && !Repeats(results[..n], results[n].name)
  {
    var n := |results| - 1;
    assert forall i | 0 <= i < n :: results[..n][i] == results[i] && results[i] in results[..n];
    if DifferentNames(results[..n]) && !Repeats(results[..n], results[n].name) {
      forall i, j | 0 <= i < j < |results| ensures results[i].name != results[j].name {
        if j < n { assert results[..n][i].name != results[..n][j].name; }
      }
    }
  }

  predicate Tested(w: World, reference: string, target: string, e: RollbackEvidence, notAfter: Option<int>) {
    && e.rollbackReference == reference && e.targetBuild == target
    && e.resolved && e.available && e.compatible && e.restored && e.passed
    && w.time(e.testedAt).Some? && Strip(e.reference) != ""
    && (notAfter.Some? ==> w.time(e.testedAt).value <= notAfter.value)
  }

  lemma TestMeaning(w: World, reference: string, target: string, e: RollbackEvidence, notAfter: Option<int>)
    ensures RollbackTestReasons(w, reference, target, e, notAfter) == [] <==> Tested(w, reference, target, e, notAfter)
  {
    hide Strip;
  }

  /** Everything a promotion plan needs to be ready. */
  predicate Promotable(w: World, q: Request) {
    var c, v, prepared := q.candidate, q.verification, w.time(q.preparedAt);
    && prepared.Some? && q.decision == Fresh(w, c) && Gate.Acceptable(w.fold, c, Gate.V1())
    && Identified(w, c, v) && ManifestSound(w, c, q.decision, v)
    && Authorized(w, c, v.manifestSha, q.authorization, Promote, prepared)
    && Preflight(w, ExpectedOf(w, q), q.preflight)
    && Rehearsed(w, c.rollback, q.rollbackTest, prepared)
  }

  /** There is a way back, and it has been tested. */
  predicate Rehearsed(w: World, rollback: Option<Gate.Rollback>, e: RollbackEvidence, notAfter: Option<int>) {
    rollback.Some? && Tested(w, rollback.value.reference, rollback.value.previousBuild, e, notAfter)
  }

  lemma ReadinessMeaning(w: World, rollback: Option<Gate.Rollback>, e: RollbackEvidence, notAfter: Option<int>)
    ensures RollbackReadiness(w, rollback, e, notAfter).0 == [] <==>
      && rollback.Some?
      && Tested(w, rollback.value.reference, rollback.value.previousBuild, e, notAfter)
    ensures RollbackReadiness(w, rollback, e, notAfter).0 == [] ==>
      AllPassed(RollbackReadiness(w, rollback, e, notAfter).1)
  {
    if rollback.Some? {
      TestMeaning(w, rollback.value.reference, rollback.value.previousBuild, e, notAfter);
    }
    hide RollbackTestReasons, Tested;
  }

  lemma GateReasonsMeaning(w: World, q: Request)
    ensures GateReasons(w, q) == [] <==>
      && w.time(q.preparedAt).Some? && q.decision == Fresh(w, q.candidate)
      && Gate.Acceptable(w.fold, q.candidate, Gate.V1())
  {
    Gate.GateMeaning(w.fold, q.candidate, Gate.V1());
    hide Gate.DecisionOf, Gate.Acceptable, Gate.V1;
  }

  /** A plan is ready exactly when everything it needs is there. */
  lemma PlanMeaning(w: World, q: Request)
    ensures PlanOf(w, q).status == Ready <==> Promotable(w, q)
    ensures PlanOf(w, q).status == Ready || PlanOf(w, q).status == Blocked
  {
    GateReasonsMeaning(w, q);
    IdentityMeaning(w, q.candidate, q.verification);
    ManifestMeaning(w, q.candidate, q.decision, q.verification);
    AuthorizationMeaning(w, q.candidate, q.verification.manifestSha, q.authorization, Promote, w.time(q.preparedAt));
    PreflightMeaning(w, ExpectedOf(w, q), q.preflight);
    ReadinessMeaning(w, q.candidate.rollback, q.rollbackTest, w.time(q.preparedAt));
    hide GateReasons, IdentityReasons, ManifestReasons, AuthorizationReasons, PreflightReasons, RollbackReadiness,
         Identified, ManifestSound, Authorized, Preflight, Tested, Fresh, Gate.Acceptable, BuildAudit, PlanChecks,
         Gate.V1, ExpectedOf;
  }
}
