/** The candidate that is rebuilt from a ready plan passes the gate again, with the same approvals. */
module PromotionRebuild {
  import opened Prelude
  import Gate = DeploymentGate
  import opened PromotionController
  import opened PromotionMeaning
  import opened PromotionSafety

  predicate Resolved(artifacts: seq<Gate.DeploymentArtifact>) {
    forall a | a in artifacts :: a.resolved == Some(a.path)
  }

  function Declared(artifacts: seq<Gate.DeploymentArtifact>): set<(string, string)> {
    set a | a in artifacts :: (a.path, if a.resolved.Some? then a.resolved.value else "")
  }

  function Inventoried(artifacts: seq<ManifestArtifact>): set<(string, string)> {
    set a | a in artifacts :: (a.path, a.resolved)
  }

  lemma InventoryMembers(artifacts: seq<ManifestArtifact>)
    ensures forall a :: a in Inventory(artifacts) <==>
      a.resolved.Some? && (a.path, a.resolved.value) in Inventoried(artifacts)
  {
    forall m | m in artifacts ensures Gate.DeploymentArtifact(m.path, Some(m.resolved)) in Inventory(artifacts) {
      var i :| 0 <= i < |artifacts| && artifacts[i] == m;
      assert Inventory(artifacts)[i] == Gate.DeploymentArtifact(m.path, Some(m.resolved));
    }
  }

  lemma DeclaredMembers(artifacts: seq<Gate.DeploymentArtifact>)
    requires Resolved(artifacts)
    ensures forall a :: a in artifacts <==> a.resolved.Some? && (a.path, a.resolved.value) in Declared(artifacts)
  {
    forall a: Gate.DeploymentArtifact | a.resolved.Some? && (a.path, a.resolved.value) in Declared(artifacts)
      ensures a in artifacts
    {
      var b :| b in artifacts && (b.path, if b.resolved.Some? then b.resolved.value else "") == (a.path, a.resolved.value);
      assert a == b;
    }
  }

  /** An inventory that matches the declared artifacts has exactly these artifacts. */
  lemma SameArtifacts(declared: seq<Gate.DeploymentArtifact>, inventory: seq<ManifestArtifact>)
    requires Resolved(declared) && Declared(declared) == Inventoried(inventory)
    ensures forall a :: a in declared <==> a in Inventory(inventory)
  {
    DeclaredMembers(declared);
    InventoryMembers(inventory);
    hide Declared, Inventoried, Inventory;
  }

  lemma CheckedResolved(fold: Gate.Fold, artifacts: seq<Gate.DeploymentArtifact>)
    requires forall a | a in artifacts :: Gate.CheckArtifact(fold, a).Ok?
    ensures Resolved(artifacts)
  {
    hide Gate.CheckArtifact;
    forall a | a in artifacts ensures a.resolved == Some(a.path) {
      Gate.ArtifactApproved(fold, a);
    }
  }

  function ApprovedSet(approved: seq<Gate.Approved>): set<Gate.Approved> { set x | x in approved }

  lemma SameApproved(fold: Gate.Fold, a: seq<Gate.DeploymentArtifact>, b: seq<Gate.DeploymentArtifact>)
    requires forall x :: x in a <==> x in b
    ensures ApprovedSet(Gate.ApprovedArtifacts(fold, a)) == ApprovedSet(Gate.ApprovedArtifacts(fold, b))
  {
    Gate.ArtifactsAllowed(fold, a);
    Gate.ArtifactsAllowed(fold, b);
    hide Gate.CheckArtifact, Gate.ApprovedArtifacts;
    forall x ensures x in ApprovedSet(Gate.ApprovedArtifacts(fold, a)) <==> x in ApprovedSet(Gate.ApprovedArtifacts(fold, b)) {
    }
  }

  /** What a ready plan says about its request. */
  lemma ReadyFacts(w: World, q: Request)
    ensures PlanOf(w, q).status == Ready ==>
      && q.decision == Fresh(w, q.candidate) && Gate.Acceptable(w.fold, q.candidate, Gate.V1())
      && Declared(q.candidate.artifacts) == Inventoried(q.verification.artifacts)
  {
    PlanMeaning(w, q);
    hide PlanOf, Identified, Authorized, Preflight, Tested, ManifestMatches, Gate.Acceptable, UniquePaths, ArtifactSound,
         Fresh;
  }

  lemma CandidateFacts(w: World, q: Request)
    ensures
      var c, plan := q.candidate, PlanOf(w, q);
      CandidateFrom(plan) == Gate.Candidate(c.repository, c.branch, c.commit, c.builder, c.production,
        "data/local_staging", "data", Inventory(q.verification.artifacts), c.rollback, true, true, true, true)
  {
    PlanAudit(w, q);
    PlanSubject(w, q);
    hide PlanOf, Inventory, AuditValid, PlanChecks;
  }

  /** A candidate keeps its acceptance when its artifacts are listed again. */
  lemma RelistedAcceptable(fold: Gate.Fold, c: Gate.Candidate, artifacts: seq<Gate.DeploymentArtifact>)
    requires Gate.Acceptable(fold, c, Gate.V1()) && forall x :: x in c.artifacts <==> x in artifacts
    ensures
      var again := Gate.Candidate(c.repository, c.branch, c.commit, c.builder, c.production, "data/local_staging", "data",
                                  artifacts, c.rollback, true, true, true, true);
      Gate.Acceptable(fold, again, Gate.V1()) && (artifacts == c.artifacts ==> again == c)
  {
    hide Gate.CheckArtifact, Gate.Identity, Gate.PathError, Gate.Restorable;
    assert c.artifacts[0] in c.artifacts;
  }

  /** From a ready plan, the gate allows the rebuilt candidate and approves the same artifacts under the same categories;
      the decision itself, and so its recorded digest, is the same exactly when the inventory keeps the order. */
  lemma GateRebuilt(w: World, q: Request)
    ensures
      var plan := PlanOf(w, q);
      var again := GateFrom(w, plan);
      plan.status == Ready ==>
        && again.promotable && ApprovedSet(again.approved) == ApprovedSet(plan.approved)
        && (again == q.decision <==> Inventory(q.verification.artifacts) == q.candidate.artifacts)
        && (again == q.decision ==> w.sha(GatePayload(again)) == plan.audit.gateSha)
  {
    ReadyFacts(w, q);
    CandidateFacts(w, q);
    PlanAudit(w, q);
    PlanSubject(w, q);
    hide PlanOf, CandidateFrom, Gate.Acceptable, Gate.DecisionOf, Gate.ApprovedArtifacts, ApprovedSet, Inventory, Declared,
         Inventoried, AuditValid, PlanChecks, Gate.CheckArtifact, Resolved, Gate.V1;
    if PlanOf(w, q).status == Ready {
      var c, artifacts := q.candidate, Inventory(q.verification.artifacts);
      AcceptedArtifacts(w.fold, c);
      CheckedResolved(w.fold, c.artifacts);
      SameArtifacts(c.artifacts, q.verification.artifacts);
      RelistedAcceptable(w.fold, c, artifacts);
      SameApproved(w.fold, c.artifacts, artifacts);
      Gate.GateMeaning(w.fold, CandidateFrom(PlanOf(w, q)), Gate.V1());
      DecisionApproved(w, c);
      DecisionApproved(w, CandidateFrom(PlanOf(w, q)));
      ApprovedOrder(w.fold, c.artifacts, artifacts);
    }
  }

  /** The list of approvals shows the order of the artifacts. */
  lemma ApprovedOrder(fold: Gate.Fold, a: seq<Gate.DeploymentArtifact>, b: seq<Gate.DeploymentArtifact>)
    requires (forall x | x in a :: Gate.CheckArtifact(fold, x).Ok?) && forall x :: x in a <==> x in b
    ensures Gate.ApprovedArtifacts(fold, a) == Gate.ApprovedArtifacts(fold, b) ==> a == b
  {
    Gate.ApprovedList(fold, a);
    Gate.ApprovedList(fold, b);
    hide Gate.CheckArtifact, Gate.ApprovedArtifacts;
    if Gate.ApprovedArtifacts(fold, a) == Gate.ApprovedArtifacts(fold, b) {
      forall i | 0 <= i < |a| ensures a[i] == b[i] {
        Gate.ArtifactApproved(fold, a[i]);
        Gate.ArtifactApproved(fold, b[i]);
      }
    }
  }

  lemma AcceptedArtifacts(fold: Gate.Fold, c: Gate.Candidate)
    requires Gate.Acceptable(fold, c, Gate.V1())
    ensures forall a | a in c.artifacts :: Gate.CheckArtifact(fold, a).Ok?
  {
    hide Gate.CheckArtifact, Gate.Identity, Gate.PathError, Gate.Restorable;
  }

  lemma DecisionApproved(w: World, c: Gate.Candidate)
    ensures Fresh(w, c).approved == Gate.ApprovedArtifacts(w.fold, c.artifacts)
  {
    hide Gate.GateReasons, Gate.ApprovedArtifacts, Gate.MissingFields;
  }
}
