/** What holds across the stages of a promotion: one authorization, one content, an audit trail, and a way back. */
module PromotionSafety {
  import opened Prelude
  import opened Sorting
  import Gate = DeploymentGate
  import Patterns
  import opened PromotionController
  import opened PromotionMeaning
  import opened ManifestOrder

  // ---- one authorization

  lemma ReadyAuthorized(w: World, q: Request)
    ensures PlanOf(w, q).status == Ready ==>
      && ManifestMatches(w, q.verification)
      && Authorized(w, q.candidate, q.verification.manifestSha, q.authorization, Promote, w.time(q.preparedAt))
  {
    PlanMeaning(w, q);
    hide PlanOf, Identified, Authorized, Preflight, Tested, ManifestMatches, Gate.Acceptable, UniquePaths,
         InventoryMatches, ArtifactSound, Fresh;
  }

  /** Two plans made ready by one authorization are for the same commit, the same rollback target and the same artifacts. */
  lemma AuthorizationPins(w: World, q: Request, r: Request)
    requires q.authorization == r.authorization && Separates(w, q.verification.artifacts, r.verification.artifacts)
    ensures PlanOf(w, q).status == Ready && PlanOf(w, r).status == Ready ==>
      && w.fold(q.candidate.commit) == w.fold(r.candidate.commit)
      && PreviousBuild(q.candidate.rollback) == PreviousBuild(r.candidate.rollback)
      && multiset(q.verification.artifacts) == multiset(r.verification.artifacts)
  {
    ReadyAuthorized(w, q);
    ReadyAuthorized(w, r);
    hide PlanOf, PreviousBuild;
    SortPermutes(PathLe, q.verification.artifacts);
    SortPermutes(PathLe, r.verification.artifacts);
    hide Sort;
  }

  // ---- outcomes and the way back

  /** An outcome is completed or stopped exactly when changes were applied, and then exactly one thing follows. */
  lemma OutcomeFollows(w: World, plan: PromotionPlan, e: Execution)
    ensures
      var o := OutcomeOf(w, plan, e);
      && (o.status == Completed || o.status == Stopped <==> e.applied)
      && (e.applied ==> o.rollbackRequired != o.furtherAllowed)
      && (!e.applied ==> !o.rollbackRequired && !o.furtherAllowed)
      && (o.furtherAllowed <==> plan.status == Ready && e.applied && ExecutionReasons(w, plan, e) == [])
      && (o.rollbackRequired <==> e.applied && !o.furtherAllowed)
  {
    hide CloneAudit, ExecutionReasons, ExecutionChecks;
  }

  /** Whatever outcome it is given, a rollback plan is pending exactly for an approved promotion or one that has to be
      recovered, after an attempt that changed something, with a human's authorization in time. */
  lemma RollbackPending(w: World, plan: PromotionPlan, o: Outcome, a: Option<Authorization>, preparedAt: string)
    ensures
      var rollback := RollbackPlanOf(w, plan, o, a, preparedAt);
      && (rollback.status == PendingTest <==>
            && (plan.status == Ready || o.rollbackRequired) && (o.status == Completed || o.status == Stopped)
            && w.time(preparedAt).Some?
            && Authorized(w, CandidateFrom(plan), plan.manifestSha, a, Rollback, w.time(preparedAt)))
      && (rollback.status == PendingTest || rollback.status == Blocked)
  {
    AuthorizationMeaning(w, CandidateFrom(plan), plan.manifestSha, a, Rollback, w.time(preparedAt));
    hide Authorized, AuthorizationReasons, BuildAudit, CandidateFrom, GateFrom, RollbackChecks;
  }

  /** For the outcome of an execution, a rollback can be tested exactly when changes were applied and a human has
      authorized it in time; neither the state of the plan nor the way its execution went can stand in the way. */
  lemma RollbackAvailable(w: World, plan: PromotionPlan, e: Execution, a: Option<Authorization>, preparedAt: string)
    ensures
      var rollback := RollbackPlanOf(w, plan, OutcomeOf(w, plan, e), a, preparedAt);
      rollback.status == PendingTest <==>
        && e.applied && w.time(preparedAt).Some?
        && Authorized(w, CandidateFrom(plan), plan.manifestSha, a, Rollback, w.time(preparedAt))
  {
    OutcomeFollows(w, plan, e);
    RollbackPending(w, plan, OutcomeOf(w, plan, e), a, preparedAt);
    hide OutcomeOf, RollbackPlanOf, Authorized, CandidateFrom;
  }

  /** No authorization serves both ways, whatever plan and outcome the rollback is for. */
  lemma NoDoubleUse(w: World, q: Request, plan: PromotionPlan, o: Outcome, preparedAt: string)
    ensures PlanOf(w, q).status == Ready ==> RollbackPlanOf(w, plan, o, q.authorization, preparedAt).status == Blocked
  {
    ReadyAuthorized(w, q);
    RollbackPending(w, plan, o, q.authorization, preparedAt);
    hide PlanOf, RollbackPlanOf, CandidateFrom, PreviousBuild, Opaque, Who;
  }

  // ---- audit records

  lemma BuiltAuditValid(w: World, s: Stage, c: Gate.Candidate, v: Verification, a: Option<Authorization>, d: Gate.Decision)
    ensures AuditValid(w, BuildAudit(w, s, c, v, a, d))
    ensures Recorded(BuildAudit(w, s, c, v, a, d)) == BuiltBase(w, s, c, v, a, d)
  {
  }

  lemma ClonedAuditValid(w: World, s: Stage, a: AuditMetadata, executor: string)
    ensures AuditValid(w, CloneAudit(w, s, a, executor))
    ensures Recorded(CloneAudit(w, s, a, executor)) == ClonedBase(s, a, executor)
  {
  }

  /** The four stages of one promotion. */
  datatype Pipeline = Pipeline(plan: PromotionPlan, outcome: Outcome, rollback: RollbackPlan, assessment: Assessment)

  /** What the stages are given besides the plan's own request. */
  datatype Later = Later(
    execution: Execution, authorization: Option<Authorization>, preparedAt: string, test: RollbackEvidence,
    evaluatedAt: string)

  function Stages(w: World, q: Request, l: Later): Pipeline {
    var plan := PlanOf(w, q);
    var outcome := OutcomeOf(w, plan, l.execution);
    var rollback := RollbackPlanOf(w, plan, outcome, l.authorization, l.preparedAt);
    Pipeline(plan, outcome, rollback, AssessmentOf(w, rollback, l.test, l.evaluatedAt))
  }

  lemma PlanAudit(w: World, q: Request)
    ensures
      var a := PlanOf(w, q).audit;
      && AuditValid(w, a) && a.parent == None && a.action == Promote && a.checks == PlanChecks(w, q)
      && a.candidateBuild == q.candidate.commit && a.manifestSha == q.verification.manifestSha
      && a.artifacts == q.verification.artifacts && a.repository == q.candidate.repository
      && a.branch == q.candidate.branch && a.gateSha == w.sha(GatePayload(q.decision)) && !a.controllerChanges
  {
    var status := if PlanReasons(w, q) == [] then Ready else Blocked;
    var s := PlanStage(q, status, PlanChecks(w, q));
    BuiltAuditValid(w, s, q.candidate, q.verification, q.authorization, q.decision);
    hide PlanReasons, PlanChecks, AuditValid, Recorded;
  }

  lemma OutcomeAudit(w: World, plan: PromotionPlan, e: Execution)
    ensures
      var a := OutcomeOf(w, plan, e).audit;
      && AuditValid(w, a) && a.parent == Some(plan.audit.operationId) && a.action == Promote
      && plan.audit.checks <= a.checks && a.checks == ExecutionChecks(w, plan, e)
      && a.candidateBuild == plan.audit.candidateBuild && a.manifestSha == plan.audit.manifestSha
      && a.artifacts == plan.audit.artifacts && a.gateSha == plan.audit.gateSha
      && a.externalChanges == e.applied && !a.controllerChanges
  {
    var status := OutcomeOf(w, plan, e).status;
    var s := Stage(Promote, status, ExecutionChecks(w, plan, e), e.completedAt, Some(e.restart), e.smoke, e.applied,
                   Some(plan.audit.operationId));
    ClonedAuditValid(w, s, plan.audit, e.executor);
    ChecksExtend(w, plan, e);
    hide ExecutionReasons, ExecutionChecks, AuditValid, Recorded, ClonedBase;
  }

  lemma ChecksExtend(w: World, plan: PromotionPlan, e: Execution)
    ensures plan.audit.checks <= ExecutionChecks(w, plan, e)
  {
    hide PostChecks, PostPasses;
  }

  lemma RollbackAudit(w: World, plan: PromotionPlan, o: Outcome, a: Option<Authorization>, preparedAt: string)
    ensures
      var r := RollbackPlanOf(w, plan, o, a, preparedAt).audit;
      && AuditValid(w, r) && r.parent == Some(o.audit.operationId) && r.action == Rollback
      && r.checks == RollbackChecks(w, plan, a, preparedAt)
      && r.candidateBuild == plan.candidateBuild && r.manifestSha == plan.manifestSha
      && r.artifacts == plan.audit.artifacts && r.gateSha == w.sha(GatePayload(GateFrom(w, plan)))
      && !r.controllerChanges
  {
    var status := if RollbackReasons(w, plan, o, a, preparedAt) == [] then PendingTest else Blocked;
    var s := Stage(Rollback, status, RollbackChecks(w, plan, a, preparedAt), preparedAt, None, [], false,
                   Some(o.audit.operationId));
    BuiltAuditValid(w, s, CandidateFrom(plan), VerificationFrom(plan), a, GateFrom(w, plan));
    hide RollbackReasons, RollbackChecks, AuditValid, Recorded, GateFrom, Inventory;
  }

  lemma AssessmentAudit(w: World, plan: RollbackPlan, e: RollbackEvidence, evaluatedAt: string)
    ensures
      var a := AssessmentOf(w, plan, e, evaluatedAt).audit;
      && AuditValid(w, a) && a.parent == Some(plan.audit.operationId) && a.action == RollbackTest
      && plan.audit.checks <= a.checks && |a.checks| == |plan.audit.checks| + 1
      && a.candidateBuild == plan.audit.candidateBuild && a.manifestSha == plan.audit.manifestSha
      && a.artifacts == plan.audit.artifacts && a.gateSha == plan.audit.gateSha && !a.controllerChanges
  {
    var reasons := AssessmentReasons(w, plan, e, evaluatedAt);
    var valid := RollbackTestReasons(w, plan.reference, plan.targetBuild, e, None) == [];
    var s := Stage(RollbackTest, if reasons == [] then Ready else Blocked,
                   plan.audit.checks + [ReadinessCheck(plan.targetBuild, e, valid)], evaluatedAt, None, [], false,
                   Some(plan.audit.operationId));
    ClonedAuditValid(w, s, plan.audit, plan.audit.executor);
    hide AssessmentReasons, RollbackTestReasons, AuditValid, Recorded, ClonedBase;
  }

  /** Every record of a promotion is intact, names its predecessor, and is about the same build and the same content. */
  lemma AuditTrail(w: World, q: Request, l: Later)
    ensures
      var p := Stages(w, q, l);
      var a, b, c, d := p.plan.audit, p.outcome.audit, p.rollback.audit, p.assessment.audit;
      && AuditValid(w, a) && AuditValid(w, b) && AuditValid(w, c) && AuditValid(w, d)
      && a.parent == None && b.parent == Some(a.operationId) && c.parent == Some(b.operationId)
      && d.parent == Some(c.operationId)
      && a.checks <= b.checks && c.checks <= d.checks
      && a.candidateBuild == b.candidateBuild == c.candidateBuild == d.candidateBuild == q.candidate.commit
      && a.manifestSha == b.manifestSha == c.manifestSha == d.manifestSha == q.verification.manifestSha
      && a.artifacts == b.artifacts == c.artifacts == d.artifacts == q.verification.artifacts
  {
    var plan := PlanOf(w, q);
    var outcome := OutcomeOf(w, plan, l.execution);
    PlanAudit(w, q);
    PlanSubject(w, q);
    OutcomeAudit(w, plan, l.execution);
    RollbackAudit(w, plan, outcome, l.authorization, l.preparedAt);
    AssessmentAudit(w, RollbackPlanOf(w, plan, outcome, l.authorization, l.preparedAt), l.test, l.evaluatedAt);
    hide PlanOf, OutcomeOf, RollbackPlanOf, AssessmentOf, AuditValid, PlanChecks, ExecutionChecks, RollbackChecks, GateFrom;
  }

  lemma PlanSubject(w: World, q: Request)
    ensures
      var p := PlanOf(w, q);
      && p.candidateBuild == q.candidate.commit && p.manifestSha == q.verification.manifestSha
      && p.builder == q.candidate.builder && p.production == q.candidate.production
      && p.rollback == q.candidate.rollback && p.approved == q.decision.approved
  {
    hide PlanReasons, PlanChecks, BuildAudit;
  }

  /** Changing any field of an intact record, its id included, breaks its digest. */
  lemma RecordsPinned(w: World, a: AuditMetadata, b: AuditMetadata)
    requires AuditValid(w, a) && AuditValid(w, b) && a.recordSha == b.recordSha
    requires
      var x, y := RecordPayload(a.operationId, Recorded(a)), RecordPayload(b.operationId, Recorded(b));
      w.sha(x) == w.sha(y) ==> x == y
    ensures a == b
  {
    assert Recorded(a) == Recorded(b) && a.operationId == b.operationId;
  }

  // ---- no failed checks where things went well

  lemma PlanChecksPassed(w: World, q: Request)
    ensures PlanReasons(w, q) == [] ==> AllPassed(PlanChecks(w, q))
  {
    var gate, identity := [GateCheck(w, q)], IdentityChecks(w, q.candidate, q.verification, EarlyReasons(w, q));
    var manifest := ManifestChecks(w, q.candidate, q.decision, q.verification);
    var human := [AuthorizationCheck(q.authorization, PromotionAuthorization(w, q) == [])];
    var smoke := SmokeChecks(w, ExpectedOf(w, q), q.preflight);
    var ready := RollbackReadiness(w, q.candidate.rollback, q.rollbackTest, w.time(q.preparedAt)).1;
    EarlyChecksPassed(w, q);
    ManifestChecksPassed(w, q);
    HumanCheckPassed(w, q);
    PreflightMeaning(w, ExpectedOf(w, q), q.preflight);
    ReadinessMeaning(w, q.candidate.rollback, q.rollbackTest, w.time(q.preparedAt));
    AllPassedConcat(gate, identity);
    AllPassedConcat(gate + identity, manifest);
    AllPassedConcat(gate + identity + manifest, human);
    AllPassedConcat(gate + identity + manifest + human, smoke);
    AllPassedConcat(gate + identity + manifest + human + smoke, ready);
    hide AllPassed, GateCheck, IdentityChecks, EarlyReasons, ManifestChecks, ManifestReasons, AuthorizationCheck,
         PromotionAuthorization, SmokeChecks, PreflightReasons, RollbackReadiness, Preflight, Tested, ExpectedOf;
  }

  lemma EarlyChecksPassed(w: World, q: Request)
    ensures EarlyReasons(w, q) == [] ==>
      && AllPassed([GateCheck(w, q)])
      && AllPassed(IdentityChecks(w, q.candidate, q.verification, EarlyReasons(w, q)))
  {
    GateReasonsMeaning(w, q);
    IdentityMeaning(w, q.candidate, q.verification);
    hide Fresh, Gate.Acceptable, GateReasons, IdentityReasons, Patterns.Commit;
  }

  lemma ManifestChecksPassed(w: World, q: Request)
    ensures ManifestReasons(w, q.candidate, q.decision, q.verification) == [] ==>
      AllPassed(ManifestChecks(w, q.candidate, q.decision, q.verification))
  {
    ManifestMeaning(w, q.candidate, q.decision, q.verification);
    hide ManifestReasons, ManifestMatches, InventoryMatches, ManifestSha;
  }

  lemma HumanCheckPassed(w: World, q: Request)
    ensures PromotionAuthorization(w, q) == [] ==>
      AllPassed([AuthorizationCheck(q.authorization, PromotionAuthorization(w, q) == [])])
  {
    AuthorizationMeaning(w, q.candidate, q.verification.manifestSha, q.authorization, Promote, w.time(q.preparedAt));
    hide AuthorizationReasons;
  }

  lemma {:induction false} PostChecksPassed(w: World, x: Expected, results: seq<Evidence>)
    ensures AllPassed(PostChecks(w, x, results)) <==> !PostFailed(w, x, results)
  {
    hide PostPasses;
    if results != [] {
      var n := |results| - 1;
      var check := Label("post_smoke:", results[n], PostPasses(w, x, results[n]));
      PostChecksPassed(w, x, results[..n]);
      AllPassedConcat(PostChecks(w, x, results[..n]), [check]);
      assert AllPassed([check]) <==> check.passed by { assert check in [check]; }
      assert results == results[..n] + [results[n]];
    }
  }

  lemma CompletedChecks(w: World, plan: PromotionPlan, e: Execution)
    requires AllPassed(plan.audit.checks) && e.applied && ExecutionReasons(w, plan, e) == []
    ensures AllPassed(ExecutionChecks(w, plan, e))
  {
    var x := ExpectedAfter(w, plan, e);
    var own := [AuditCheck("external_promotion_applied", e.applied, e.executor, ""),
                AuditCheck("production_restart", PostPasses(w, x, e.restart), e.restart.reference, "")];
    PostChecksPassed(w, x, e.smoke);
    AllPassedConcat(plan.audit.checks, own);
    AllPassedConcat(plan.audit.checks + own, PostChecks(w, x, e.smoke));
    assert PostPasses(w, x, e.restart) && !PostFailed(w, x, e.smoke);
    hide PostPasses, PostFailed, PostChecks, ExecutionReasons, ExpectedAfter;
  }

  /** A ready plan, a completed outcome and a ready rollback assessment carry no failed check. */
  lemma NoFailedChecks(w: World, q: Request, l: Later)
    ensures
      var p := Stages(w, q, l);
      && (p.plan.status == Ready ==> AllPassed(p.plan.audit.checks))
      && (p.outcome.status == Completed ==> AllPassed(p.outcome.audit.checks))
      && (p.rollback.status == PendingTest ==> AllPassed(p.rollback.audit.checks))
      && (p.assessment.status == Ready ==> AllPassed(p.assessment.audit.checks) && p.rollback.status == PendingTest)
  {
    var plan := PlanOf(w, q);
    var outcome := OutcomeOf(w, plan, l.execution);
    var rollback := RollbackPlanOf(w, plan, outcome, l.authorization, l.preparedAt);
    hide PlanOf, OutcomeOf, RollbackPlanOf, AssessmentOf, AllPassed, Authorized, CandidateFrom;
    ReadyPlanChecks(w, q);
    CompletedOutcomeChecks(w, plan, l.execution);
    RollbackPlanChecks(w, plan, outcome, l.authorization, l.preparedAt);
    RollbackPending(w, plan, outcome, l.authorization, l.preparedAt);
    AssessmentChecks(w, rollback, l.test, l.evaluatedAt);
  }

  lemma ReadyPlanChecks(w: World, q: Request)
    ensures PlanOf(w, q).status == Ready ==> AllPassed(PlanOf(w, q).audit.checks)
  {
    PlanAudit(w, q);
    PlanChecksPassed(w, q);
    hide PlanReasons, PlanChecks, BuildAudit, AllPassed;
  }

  lemma CompletedOutcomeChecks(w: World, plan: PromotionPlan, e: Execution)
    requires plan.status == Ready ==> AllPassed(plan.audit.checks)
    ensures OutcomeOf(w, plan, e).status == Completed ==> AllPassed(OutcomeOf(w, plan, e).audit.checks)
  {
    OutcomeAudit(w, plan, e);
    OutcomeFollows(w, plan, e);
    if plan.status == Ready && e.applied && ExecutionReasons(w, plan, e) == [] { CompletedChecks(w, plan, e); }
    hide ExecutionReasons, ExecutionChecks, CloneAudit, AllPassed;
  }

  lemma RollbackPlanChecks(w: World, plan: PromotionPlan, o: Outcome, a: Option<Authorization>, preparedAt: string)
    ensures
      var r := RollbackPlanOf(w, plan, o, a, preparedAt);
      && (r.status == PendingTest ==> AllPassed(r.audit.checks))
      && (r.status == PendingTest <==> r.reasons == []) && (r.status == Blocked <==> r.reasons != [])
  {
    RollbackAudit(w, plan, o, a, preparedAt);
    AuthorizationMeaning(w, CandidateFrom(plan), plan.manifestSha, a, Rollback, w.time(preparedAt));
    hide BuildAudit, AuthorizationReasons, GateFrom, CandidateFrom;
  }

  lemma AssessmentChecks(w: World, plan: RollbackPlan, e: RollbackEvidence, evaluatedAt: string)
    requires plan.status == PendingTest ==> AllPassed(plan.audit.checks)
    requires plan.status == PendingTest || plan.status == Blocked
    ensures
      var a := AssessmentOf(w, plan, e, evaluatedAt);
      a.status == Ready ==> AllPassed(a.audit.checks) && plan.status == PendingTest
  {
    var valid := RollbackTestReasons(w, plan.reference, plan.targetBuild, e, None) == [];
    AllPassedConcat(plan.audit.checks, [ReadinessCheck(plan.targetBuild, e, valid)]);
    hide RollbackTestReasons, OperationId;
  }
}
