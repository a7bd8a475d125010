# MiniLLM: verified models of its governance cores

MiniLLM puts a governance layer around deployment and memory: a root-owned helper that executes reviewed requests at
most once and journals every answer, a deployment gate and promotion controller, release evidence gates, a privacy
audit that looks for private text in public candidates, and the append-only parts of its home tools. This project
models these cores in Dafny and proves what they are for.

| files | component |
|---|---|
| AuditJournal, JournalText, ReviewedOperations, AdminSafety, AdminMeaning, AdminJournal, AdminHelper | `scripts/minillm_admin.py`: the reviewed-operation state machine and its hash-chained journal |
| DeploymentGate, PromotionController, PromotionMeaning, ManifestOrder, PromotionSafety, PromotionRebuild | `deployment_gate.py` and `promotion_controller.py`: plans, outcomes, rollback plans and their tests, with audit records |
| CorpusOverlap, OverlapExactness, OverlapReport | `scripts/audit_private_corpus_overlap.py`: the n-word overlap detector |
| BakeCam, SpoolSafety, SpoolRuns, SpoolBalance, SpoolBoundaries, SpoolSurplus, CapturePlan | `bake_cam.py`: the write-ahead capture spool, its synchronization, durations and capture plans |
| Lines, RecipeCard, RecipeNames, RecipeRoundTrip, RecipeTheorem, RecipeAttempts, AttemptNotes, ContextMerge, NoteNames | `home_mcp.py`: recipe cards, the attempt log, the slot merge and note names |
| ReleaseEvidence, ReleaseGates | `scripts/build_release_evidence_manifest.py`: policy rules, artifact gates and blockers |
| Prelude, Sorting, Text, Decimal, Json, Patterns | shared definitions: Python's sorting, string operations, decimal notation, JSON equality, full-match patterns |

How the models are built:

- Where the program updates state, there is a class or a method with loops, proved equal to a function of its inputs or
  its old state; the theorems are lemmas about these functions and about runs of them.
- Files, clocks, commands and the network are parameters. In the administration helper an environment decides at every
  named point whether it passes, raises, or ends the process before or after its effect; an append to the journal can also
  stop within its line. In the capture spool a run may be cut between any two durable writes.
- SHA-256, HMAC, case folding and timestamp parsing are arbitrary functions; a timestamp may also be one whose conversion to UTC leaves
  the calendar, which no caller catches. Where a theorem needs that a hash separates
  something, it says so as a hypothesis about exactly the payloads at hand.
- Where a promise does not hold of the code, a lemma names a case in which it fails and another one proves exactly when it
  holds: `RecipeTheorem.RoundTrip` with `SourceBecomesStep` and `SourceBecomesIngredient`, `AttemptNotes.ExtractedExactly`
  with `TagsInNotesLose`, `SpoolSurplus.SumsExactlyWhenClean` with `SpoolBoundaries.StoppedAfterCopy`,
  `AuditJournal.AppendKeepsChain` with `UnterminatedBreaks`, `AdminJournal.JournalCountsReturns` with
  `StoredWithoutAnswer` and `AnsweredWithoutRecord`, `ManifestOrder.ManifestOrderFree` with `RepeatedPathsOrdered`,
  `ReleaseGates.ManifestBuilt` with `TimestampAborts`, and `CapturePlan.FormatParse`.

## Model

| member | source | states |
|---|---|---|
| AuditJournal.AdminAuditJournal.ReadAll | scripts/minillm_admin.py:390-415 | reading succeeds exactly on an accepted chain and returns its records; otherwise it names the first line at which the chain breaks |
| AuditJournal.AdminAuditJournal.Append | scripts/minillm_admin.py:417-443 | appending returns exactly on an accepted journal when nothing stops it; whatever part of the line was written before it stopped is in the file |
| AuditJournal.TakeOneMore | scripts/minillm_admin.py:397-414 | one step of reading: the longer prefix is accepted exactly when its last line is a chained record |
| AuditJournal.AcceptedPrefix | scripts/minillm_admin.py:390-415 | every prefix of an accepted journal is accepted |
| AuditJournal.RecordsOfAccepted | scripts/minillm_admin.py:390-415 | the records of an accepted journal are numbered from 1 and each links to its predecessor's digest |
| AuditJournal.AppendKeepsChain | scripts/minillm_admin.py:417-443 | the file is accepted after a write exactly when nothing, or at least the whole record, was written at the start of a line, for a payload that leaves the chain keys as the helper sets them |
| AuditJournal.AppendPreservesPayload | scripts/minillm_admin.py:417-424 | a payload free of chain keys is stored unchanged with the next number; the file is accepted exactly when the line before had its line break |
| AuditJournal.UnterminatedBreaks | scripts/minillm_admin.py:417-443 | an append that stops just short of the line break leaves an accepted file, and the next complete one a file that is not |
| JournalText.SplitTail | scripts/minillm_admin.py:397 | text behind a finished line is a new line, and behind an unfinished one continues it |
| JournalText.WrittenAsText | scripts/minillm_admin.py:390-443 | whatever number of characters of an encoded line reaches the text of the file, the lines read back are the ones the journal model says |
| AuditJournal.SameDigestSameRecord | scripts/minillm_admin.py:402-412 | chained records with one digest are one record at one position with one predecessor |
| AuditJournal.LastDigestPinsJournal | scripts/minillm_admin.py:390-415 | two accepted journals with the same last digest are identical, given a hash that separates their records |
| AdminHelper.MiniLLMAdmin.CopyReviewMaterial | scripts/minillm_admin.py:792-811 | the copies of a review are written one at a time, each after its digest check, and the directory holds exactly those written before a failure |
| AdminHelper.MiniLLMAdmin.PrepareTrustedRepository | scripts/minillm_admin.py:695-731 | the Git commands run in order until one fails, and are on record even when they fail |
| AdminHelper.MiniLLMAdmin.ObtainAuthorization | scripts/minillm_admin.py:804-823 | the candidate is prepared or compared, then verified and authorized; a cutover needs no authorization |
| AdminHelper.MiniLLMAdmin.ReviewMaterial | scripts/minillm_admin.py:788-852 | a failure keeps the copied evidence and leaves no pending operation |
| AdminHelper.MiniLLMAdmin.Review | scripts/minillm_admin.py:772-852 | the whole review as a step on all stores |
| AdminHelper.MiniLLMAdmin.VerifyIdentityBoundary | scripts/minillm_admin.py:598-603 | the boundary verifier runs for the current commit and has to report no failure |
| AdminHelper.MiniLLMAdmin.CheckReviewed | scripts/minillm_admin.py:909-915 | the checks in front of the consuming rename, in order |
| AdminHelper.MiniLLMAdmin.ExecuteReviewed | scripts/minillm_admin.py:909-981 | the request leaves pending before its command runs, and the result is recorded after it |
| AdminHelper.MiniLLMAdmin.RevokePasswordless | scripts/minillm_admin.py:991-996 | the policy file is removed before the marker is written |
| AdminHelper.MiniLLMAdmin.ReportStatus | scripts/minillm_admin.py:568-596 | the probes run in order, and the report holds what each found, whether all of them did, the pending operations and the number of records |
| AdminHelper.MiniLLMAdmin.VerifyJournal | scripts/minillm_admin.py:983-989 | the number of records of an accepted journal and the digest of the last one |
| AdminHelper.MiniLLMAdmin.DispatchOperation | scripts/minillm_admin.py:998-1012 | every operation runs only behind the installed-artifact check |
| AdminHelper.MiniLLMAdmin.InvokeOperation | scripts/minillm_admin.py:1014-1097 | one invocation: context, dispatch, and one audit record whatever the operation answered; the stores stay those of the run of all invocations so far |
| AdminHelper.MiniLLMAdmin.StoresSound | scripts/minillm_admin.py:1014-1097 | after any invocations of the object, each request has had at most one effect, results belong to consumed requests, and the journal has a record for every answer unless one was written behind an unfinished line |
| AdminMeaning.ReviewShows | scripts/minillm_admin.py:772-852 | a review that reports success filled one free slot: for the complete request it read, with copies of the digests asked for, a candidate seen in place, and the authorization obtained for it |
| AdminMeaning.AuthorizeShows | scripts/minillm_admin.py:695-770 | the commands of a review are a prefix of one fixed sequence, and all of it once an authorization is handed on |
| AdminMeaning.CommandNeedsReadiness | scripts/minillm_admin.py:854-981 | an external command starts only for a pending, unexpired, unsubstituted and still active request behind a clean boundary check, which has then left pending |
| AdminMeaning.ExecuteShows | scripts/minillm_admin.py:909-981 | an execution that reports success has moved exactly its request to consumed, run its one command, and recorded its result |
| AdminMeaning.ExecutedWasReviewed | scripts/minillm_admin.py:772-981 | in every run, each command started belongs to a consumed request for that very operation, whose material is still what was reviewed |
| AdminMeaning.IdentifiersNeverFail | scripts/minillm_admin.py:916-950 | the errors for unusable identifiers after the rename cannot be reached |
| AdminSafety.RunKeeps | scripts/minillm_admin.py:772-981 | pending, consumed, results and the command trace stay consistent over every run, wherever its invocations end |
| AdminSafety.StoresNested | scripts/minillm_admin.py:674-680 | pending requests are pairwise different and unconsumed; results lie within consumed, consumed within reviewed material |
| AdminSafety.EffectAtMostOnce | scripts/minillm_admin.py:901-981 | in every run a request's external command starts at most once, and only after the request has left pending |
| AdminSafety.AlreadyConsumedUnreachable | scripts/minillm_admin.py:901-907 | the error for an already consumed request cannot be reached |
| AdminSafety.StoredReviewLoads | scripts/minillm_admin.py:854-899 | what a review has stored passes every check of loading until it expires |
| AdminSafety.ExecutedInTime | scripts/minillm_admin.py:639-645 | an executed request was loaded less than 4 h 05 min after its review was validated |
| AdminSafety.CreationCheckImplied | scripts/minillm_admin.py:642-645 | the 24-hour creation check follows from the other time checks |
| AdminSafety.RunExtends | scripts/minillm_admin.py:772-1097 | over any run consumed requests, results and commands are only added to, and the journal is continued |
| AdminSafety.ExpiredNeverExecutes | scripts/minillm_admin.py:881-882 | once expired, a pending request is never consumed or executed in any continuation, and its slot stays occupied |
| AdminJournal.RecordingFacts | scripts/minillm_admin.py:1073-1092 | the record of an invocation is chained and holds its report; an answer is given only after it was written, and the file is accepted afterwards exactly when it was written whole at the start of a line, or not at all |
| AdminJournal.InvocationFacts | scripts/minillm_admin.py:1014-1097 | each invocation answers exactly when its append returned, and adds one record, none, or takes one away, depending on where the append stopped |
| AdminJournal.JournalAccount | scripts/minillm_admin.py:1014-1097 | from any state, readable records, answers, silent records and records behind an unfinished line balance over every run |
| AdminJournal.JournalCountsReturns | scripts/minillm_admin.py:417-443 | unless a record was written behind an unfinished line, there are at least as many records as answers and at most as many as invocations, and as many as answers exactly when no append ended after its record was stored |
| AdminJournal.StoredWithoutAnswer | scripts/minillm_admin.py:436-442 | a run in which an append fails after its write: two records, one answer |
| AdminJournal.AnsweredWithoutRecord | scripts/minillm_admin.py:430-443 | a run in which an append stops before the line break: the next invocation is answered, and no record can be read any more |
| AdminSafety.RevokedIsAbsorbing | scripts/minillm_admin.py:467-494 | without the policy file every later invocation is denied and changes nothing but the journal |
| AdminSafety.RevokeIsAbsorbing | scripts/minillm_admin.py:991-1012 | a revocation that returned its report puts every continuation into that state |
| AdminJournal.RevocationJournaled | scripts/minillm_admin.py:991-1097 | after a revocation in any run, every later answer is an error, only the journal changes, and it gets one record for each answer and each silent append |
| AdminSafety.MarkerIsNeverRead | scripts/minillm_admin.py:991-996 | the revocation marker has no influence on any invocation: the missing policy file does it all |
| DeploymentGate.CheckDeploymentCandidate | src/local_agent_lab/deployment_gate.py:157-229 | the loop over the artifacts collects exactly the reasons, approvals and missing fields of the candidate |
| DeploymentGate.GateMeaning | src/local_agent_lab/deployment_gate.py:157-302 | the gate allows a candidate exactly when it meets every stated requirement |
| DeploymentGate.ArtifactsAllowed | src/local_agent_lab/deployment_gate.py:170-174 | no artifact reason remains exactly when every artifact is allowed, and the approvals are those of the allowed artifacts |
| DeploymentGate.ArtifactApproved | src/local_agent_lab/deployment_gate.py:305-358 | an approved artifact resolves to its own path and falls under the category of that path |
| DeploymentGate.ApprovedMeaning | src/local_agent_lab/deployment_gate.py:305-398 | an allowing decision approves exactly the candidate's paths, each with its category |
| DeploymentGate.RollbackAllowed | src/local_agent_lab/deployment_gate.py:179-213 | the rollback metadata raise no reason exactly when they are complete, bound to the commit, and refer opaquely |
| PromotionController.VerifyManifest | src/local_agent_lab/promotion_controller.py:770-838 | the loop adds exactly the manifest's reasons and checks to those before |
| PromotionController.VerifySmokeResults | src/local_agent_lab/promotion_controller.py:956-1000 | the loop with its set of names adds exactly one check per result and the reasons of the failing or repeated ones |
| PromotionController.BuildPromotionPlan | src/local_agent_lab/promotion_controller.py:357-447 | the plan with its reasons, checks and audit record, in the order of the verifications |
| PromotionController.AssessPromotionExecution | src/local_agent_lab/promotion_controller.py:450-565 | the outcome of an execution with its status, reasons, checks and audit record |
| PromotionMeaning.PlanMeaning | src/local_agent_lab/promotion_controller.py:357-447 | a plan is ready exactly when the gate, identity, manifest, authorization, smoke and rollback conditions all hold |
| PromotionMeaning.IdentityMeaning | src/local_agent_lab/promotion_controller.py:684-767 | no identity reason exactly for an immutable, verified, clean commit checked by an independent verifier |
| PromotionMeaning.ManifestMeaning | src/local_agent_lab/promotion_controller.py:770-838 | no manifest reason exactly for unique sound artifacts with the right digest that are the declared and approved ones |
| PromotionMeaning.AuthorizationMeaning | src/local_agent_lab/promotion_controller.py:841-953 | no authorization reason exactly for a current human approval of this action, build, rollback target and manifest |
| PromotionMeaning.PreflightMeaning | src/local_agent_lab/promotion_controller.py:956-1000 | no smoke reason exactly for a non-empty list of valid, passed, differently named results, and then all its checks passed |
| PromotionMeaning.TestMeaning | src/local_agent_lab/promotion_controller.py:1023-1078 | no rollback-test reason exactly for complete, passed, well-dated evidence about this reference and target |
| ManifestOrder.SortStable | src/local_agent_lab/promotion_controller.py:340-344 | sorting by path keeps the order of the artifacts at each path |
| ManifestOrder.ManifestDigestEqual | src/local_agent_lab/promotion_controller.py:340-344 | two inventories have one digest exactly when each path lists the same artifacts in the same order |
| ManifestOrder.ManifestOrderFree | src/local_agent_lab/promotion_controller.py:340-344 | no reordering changes the digest of an inventory exactly when no two different artifacts in it share a path |
| ManifestOrder.ManifestOrderIrrelevant | src/local_agent_lab/promotion_controller.py:340-344 | the manifest digest does not depend on the order of an inventory with unique paths, for any hash |
| ManifestOrder.RepeatedPathsOrdered | src/local_agent_lab/promotion_controller.py:340-344 | two different artifacts at one path, in either order, have two digests |
| PromotionSafety.AuthorizationPins | src/local_agent_lab/promotion_controller.py:770-953 | two plans made ready by one authorization have the same commit up to case, the same rollback target and the same artifacts |
| PromotionSafety.NoDoubleUse | src/local_agent_lab/promotion_controller.py:880-888 | an authorization that made a promotion ready can make no rollback pending, whatever plan and outcome it is for |
| PromotionSafety.OutcomeFollows | src/local_agent_lab/promotion_controller.py:528-546 | an outcome is completed or stopped exactly when changes were applied, and then exactly one of rollback and further promotion follows |
| PromotionSafety.RollbackPending | src/local_agent_lab/promotion_controller.py:568-638 | for any plan and any outcome, a rollback awaits its test exactly for a ready plan or a required recovery, a completed or stopped attempt, and a human's authorization in time |
| PromotionSafety.RollbackAvailable | src/local_agent_lab/promotion_controller.py:528-638 | for any plan and the outcome of its execution, a rollback awaits its test exactly when changes were applied and a human has authorized it in time |
| PromotionSafety.BuiltAuditValid | src/local_agent_lab/promotion_controller.py:1157-1230 | a built record carries exactly the recorded fields and verifies |
| PromotionSafety.ClonedAuditValid | src/local_agent_lab/promotion_controller.py:1233-1303 | a cloned record carries the source's fields and the stage's own, and verifies |
| PromotionSafety.OutcomeAudit | src/local_agent_lab/promotion_controller.py:547-565 | the outcome's record verifies, extends the plan's checks, names the plan's record and keeps its subject |
| PromotionSafety.RollbackAudit | src/local_agent_lab/promotion_controller.py:568-638 | the rollback plan's record verifies, names the outcome's record and carries the digest of the rerun gate |
| PromotionSafety.AssessmentAudit | src/local_agent_lab/promotion_controller.py:641-681 | the test's record verifies, extends the rollback plan's checks by one and keeps its subject |
| PromotionSafety.AuditTrail | src/local_agent_lab/promotion_controller.py:347-681 | through all four stages every record verifies, names its predecessor, and is about one build, one digest and one inventory |
| PromotionSafety.RecordsPinned | src/local_agent_lab/promotion_controller.py:347-354 | two valid records with one digest are the same record |
| PromotionSafety.NoFailedChecks | src/local_agent_lab/promotion_controller.py:357-681 | a ready plan, a completed outcome and a ready rollback assessment carry no failed check, and readiness to roll back needs a pending plan |
| PromotionRebuild.GateRebuilt | src/local_agent_lab/promotion_controller.py:1306-1343 | the candidate rebuilt from a ready plan passes the gate with the same approvals; the decision is identical exactly when the inventory keeps the order |
| CorpusOverlap.PrivateFingerprints | scripts/audit_private_corpus_overlap.py:393-426 | the index holds exactly the digests of all n-word windows, and the counters count messages, eligible ones and windows |
| CorpusOverlap.FindObjectMatches | scripts/audit_private_corpus_overlap.py:429-471 | the matching windows are collected, coalesced and reported for every location |
| CorpusOverlap.CoalesceRuns | scripts/audit_private_corpus_overlap.py:444-453 | the loop over start and previous computes the coalesced runs |
| CorpusOverlap.CoalescePartition | scripts/audit_private_corpus_overlap.py:444-453 | the runs are the maximal blocks of consecutive matching windows, in order, and cover exactly these |
| CorpusOverlap.RunsApart | scripts/audit_private_corpus_overlap.py:444-453 | any two runs are separated by at least one window that does not match |
| CorpusOverlap.CoalesceFits | scripts/audit_private_corpus_overlap.py:457-461 | every run lies within the words of the object, so its lines and span exist |
| CorpusOverlap.ScanCandidate | scripts/audit_private_corpus_overlap.py:474-507 | the report is the sorted list of all objects' matches, with matching counters |
| OverlapExactness.WordsSpaceless | scripts/audit_private_corpus_overlap.py:374-385 | no word contains the separator that joins a window |
| OverlapExactness.JoinInjective | scripts/audit_private_corpus_overlap.py:388-390 | equal windows are equal lists of words |
| OverlapExactness.NothingMissed | scripts/audit_private_corpus_overlap.py:388-441 | a window that occurs in a private message is always found, whatever the hash |
| OverlapExactness.NothingInvented | scripts/audit_private_corpus_overlap.py:388-441 | a found window occurs in a private message, given a hash that separates the windows at hand |
| OverlapExactness.DetectorExact | scripts/audit_private_corpus_overlap.py:429-471 | an object is reported exactly when n of its consecutive words occur consecutively in a private message |
| OverlapExactness.PassageInOneRun | scripts/audit_private_corpus_overlap.py:444-471 | a shared passage of at least n words lies inside exactly one run |
| OverlapExactness.CleanStaysClean | scripts/audit_private_corpus_overlap.py:393-471 | an object that is clean at n is clean at every larger n |
| OverlapReport.BisectCountsBreaks | scripts/audit_private_corpus_overlap.py:379-385 | bisecting the newline offsets counts the line breaks in front of a word |
| OverlapReport.WordLines | scripts/audit_private_corpus_overlap.py:379-385 | a word's line is one more than the breaks in front of it, and lines never decrease |
| OverlapReport.ReportedLines | scripts/audit_private_corpus_overlap.py:457-470 | no report ends on a line before the one it starts on, and each covers at least one window |
| OverlapReport.ObjectTotal | scripts/audit_private_corpus_overlap.py:455-471 | the window counts of an object sum to its locations times its matching windows |
| OverlapReport.ScanReport | scripts/audit_private_corpus_overlap.py:492-507 | the final report is sorted, keeps every match, and counts every matching window once per location |
| OverlapReport.ScanExact | scripts/audit_private_corpus_overlap.py:474-507 | the scan reports nothing exactly when no object shares n consecutive words with a private message |
| BakeCam.BakeStore.AppendSpooledCapture | src/local_agent_lab/bake_cam.py:782-787 | one durable write: the capture replaces any entry with its id at the end of the spool |
| BakeCam.BakeStore.MarkSessionCapture | src/local_agent_lab/bake_cam.py:768-773 | one durable write: the counter grows, the last error is cleared |
| BakeCam.BakeStore.RemoveSpooledCapture | src/local_agent_lab/bake_cam.py:790-795 | one durable write: the entry with this id leaves the spool |
| BakeCam.BakeStore.MarkSessionError | src/local_agent_lab/bake_cam.py:776-779 | one durable write of the last error |
| BakeCam.BakeStore.CaptureNow | src/local_agent_lab/bake_cam.py:449-588 | a capture performs its durable writes in the write-ahead order, and stops where the remote capture or its copy fails |
| BakeCam.BakeStore.SyncSession | src/local_agent_lab/bake_cam.py:265-311 | one session of a synchronization stores and counts what was copied and leaves the rest in the spool; an unknown device stops it |
| BakeCam.BakeStore.SyncSpooledCaptures | src/local_agent_lab/bake_cam.py:253-317 | the batch works from the sessions as loaded at its start, one after the other |
| BakeCam.BakeStore.ScheduleSession | src/local_agent_lab/bake_cam.py:212-250 | a schedule is refused for the stated errors or written as the plan of its offsets |
| BakeCam.BakeStore.RefreshSessionPlan | src/local_agent_lab/bake_cam.py:320-339 | a refresh rewrites a non-empty plan and nothing else |
| SpoolSafety.SafeKeeps | src/local_agent_lab/bake_cam.py:768-795 | a write that respects the protocol keeps every capture spooled or counted and every count backed by stored metadata |
| SpoolSafety.CutAnywhere | src/local_agent_lab/bake_cam.py:253-317 | cut a safe sequence of writes anywhere and every capture so far is accounted for |
| SpoolSafety.CaptureSafe | src/local_agent_lab/bake_cam.py:534-577 | each write of a capture is safe where it stands, however the capture ends |
| SpoolSafety.SessionSafe | src/local_agent_lab/bake_cam.py:265-311 | each write of a synchronized session is safe where it stands, and touches no other spool |
| SpoolRuns.OpSafe | src/local_agent_lab/bake_cam.py:212-317 | all writes of a capture, a synchronization or a plan update are safe where they stand |
| SpoolRuns.NothingLost | src/local_agent_lab/bake_cam.py:253-317 | over every run, cut anywhere, each spooled capture is still spooled or stored, and counter plus spool never falls below the captures taken |
| SpoolBoundaries.CaptureBalanced | src/local_agent_lab/bake_cam.py:449-588 | a capture with a new id keeps each capture in exactly one of spool and count |
| SpoolBoundaries.SyncSums | src/local_agent_lab/bake_cam.py:253-317 | after a synchronization counter plus spool equals the captures exactly when it did not stop at an unknown device after copying from the same session |
| SpoolBoundaries.StoppedAfterCopy | src/local_agent_lab/bake_cam.py:268-311 | a run from a new session, two captures with failed copies and one synchronization, that leaves a capture both spooled and counted |
| SpoolBoundaries.ExactAtBoundaries | src/local_agent_lab/bake_cam.py:253-317 | at every operation boundary of an uncut run without such stops, counter plus spool equals the captures taken |
| SpoolSurplus.SurplusExact | src/local_agent_lab/bake_cam.py:253-317 | at every operation boundary of any uncut run, counter plus spool exceeds the captures by exactly the copies made in sessions in which a synchronization stopped |
| SpoolSurplus.SurplusStays | src/local_agent_lab/bake_cam.py:253-317 | such a surplus is never repaired |
| SpoolSurplus.SumsExactlyWhenClean | src/local_agent_lab/bake_cam.py:253-317 | the sums are right at every boundary of an uncut run exactly when no synchronization of it stopped after a copy in the same session |
| CapturePlan.MatchesParses | src/local_agent_lab/bake_cam.py:725-737 | whatever matches the duration pattern is read as its digits times its unit |
| CapturePlan.ParsesMatches | src/local_agent_lab/bake_cam.py:725-737 | whatever is read as a duration matches the pattern |
| CapturePlan.FormatParse | src/local_agent_lab/bake_cam.py:342-347 | a label without its prefix is read back to its seconds exactly when they are not negative |
| CapturePlan.ScheduleOffsets | src/local_agent_lab/bake_cam.py:212-233 | the offsets of a schedule or the first error, from the list or the interval |
| CapturePlan.UptoMultiples | src/local_agent_lab/bake_cam.py:225 | an interval schedule holds exactly the multiples of the interval up to and including the end |
| CapturePlan.BuildPlan | src/local_agent_lab/bake_cam.py:235-246 | the plan has one item per different offset in increasing order, matched against the stored captures |
| CapturePlan.RefreshPlan | src/local_agent_lab/bake_cam.py:325-336 | a refresh rematches every item and keeps its offset and label |
| CapturePlan.CaptureForNear | src/local_agent_lab/bake_cam.py:750-754 | an offset is done exactly when a capture lies within a minute of it, and then names such a capture |
| CapturePlan.PlanOrdered | src/local_agent_lab/bake_cam.py:235-246 | plan offsets strictly increase, are exactly the requested ones, and have different labels |
| CapturePlan.RefreshReplans | src/local_agent_lab/bake_cam.py:320-339 | refreshing a plan gives what scheduling the same offsets on the same captures would |
| CapturePlan.RefreshLast | src/local_agent_lab/bake_cam.py:320-339 | only the last refresh matters; in particular refreshing is idempotent |
| CapturePlan.DoneStays | src/local_agent_lab/bake_cam.py:320-339 | added captures, in any order, never turn a done item back to pending |
| CapturePlan.RunWithRetries | src/local_agent_lab/bake_cam.py:657-676 | attempts are numbered from 1, go on only after transient failures, and stop at the first other result or the limit |
| RecipeCard.NormalizeLines | src/local_agent_lab/home_mcp.py:3893-3905 | the loop yields the items of the lines, without bullets, numbers and blanks |
| RecipeCard.ExtractRecipeStructure | src/local_agent_lab/home_mcp.py:3551-3703 | the line loop computes the title, lists, fields and notes of the state machine's final state |
| RecipeCard.RenderRecipeCardBody | src/local_agent_lab/home_mcp.py:3916-3966 | the rendered text consists of the card's parts in order |
| RecipeNames.FieldLineSets | src/local_agent_lab/home_mcp.py:3649-3654 | a rendered field line sets its field to exactly the value it shows |
| RecipeNames.NumberedItem | src/local_agent_lab/home_mcp.py:3893-3905 | a numbered step line gives the step back, whatever the step begins with |
| RecipeNames.DropNumberKeeps | src/local_agent_lab/home_mcp.py:3900-3903 | an ingredient changes exactly when it begins with a number |
| RecipeNames.ColonFree | src/local_agent_lab/home_mcp.py:3601-3654 | a line without a colon that is no heading directs nothing |
| RecipeRoundTrip.StepSeen | src/local_agent_lab/home_mcp.py:3595-3662 | one parser step depends on its line only up to surrounding space |
| RecipeRoundTrip.LinesSeen | src/local_agent_lab/home_mcp.py:3595-3662 | the parser sees only the stripped non-blank lines |
| RecipeTheorem.SourceSection | src/local_agent_lab/home_mcp.py:3601-3662 | a source section adds its bullets to the ingredients, or its heading to the steps, or nothing, depending on what precedes it |
| RecipeTheorem.CardRead | src/local_agent_lab/home_mcp.py:3551-3703 | the parser's final state on a rendered card |
| RecipeTheorem.RoundTrip | src/local_agent_lab/home_mcp.py:3551-3703 | a rendered card gives back the same ingredients, steps, yield and times exactly when no ingredient begins with a number and the source section is absent, follows notes, or adds nothing to what it follows |
| RecipeTheorem.ListsRead | src/local_agent_lab/home_mcp.py:3551-3703 | exactly the lists read back: a source section without notes adds its heading to the steps or, without steps, its bullets to the ingredients |
| RecipeTheorem.SourceBecomesStep | src/local_agent_lab/home_mcp.py:3620-3629 | a card with a step, a source and no notes gains the source heading as its last step |
| RecipeTheorem.SourceBecomesIngredient | src/local_agent_lab/home_mcp.py:3620-3629 | a card with an ingredient and a source but neither steps nor notes gains the source as its last ingredient |
| RecipeAttempts.ExtractRecipeAttempts | src/local_agent_lab/home_mcp.py:3992-4034 | the line loop returns the finished attempts |
| RecipeAttempts.RecipeFile.AppendMarkdownLog | src/local_agent_lab/home_mcp.py:890-901 | the log grows by one block behind a completed last line |
| RecipeAttempts.RecipeFile.AppendRecipeAttempt | src/local_agent_lab/home_mcp.py:1038-1054 | an attempt is appended with its own tag, notes, outcome and next time |
| RecipeAttempts.Homomorphism | src/local_agent_lab/home_mcp.py:3992-4019 | text that begins with a heading adds its own attempts to those before it |
| RecipeAttempts.TagsBack | src/local_agent_lab/home_mcp.py:4005-4008 | tags without commas are read back from their line |
| RecipeAttempts.AppendedExtracted | src/local_agent_lab/home_mcp.py:890-901 | for any existing text, appending an attempt leaves the extracted attempts unchanged, followed by exactly this one |
| AttemptNotes.ExtractedExactly | src/local_agent_lab/home_mcp.py:3992-4034 | an appended attempt is extracted as it was given exactly when its notes hold no heading, tags, outcome or next-time line |
| AttemptNotes.TagsInNotesLose | src/local_agent_lab/home_mcp.py:4005-4008 | notes with a tags line, and neither outcome nor next time: the whole attempt is lost |
| RecipeAttempts.AllExtracted | src/local_agent_lab/home_mcp.py:1038-1054 | any number of appended attempts is extracted, each once, in order |
| ContextMerge.SlotExpandedContextItems | src/local_agent_lab/home_mcp.py:156-217 | the result is the best max(limit, 6) of all sources, one item each, strictly ordered, hinted by the first slot that retrieved it |
| ContextMerge.Expand | src/local_agent_lab/home_mcp.py:202-213 | one slot hit adds a new source or the first hint of a known one, and nothing else |
| ContextMerge.BaseItems | src/local_agent_lab/home_mcp.py:171-178 | the base dictionary holds the last hit of each named source, without hints |
| ContextMerge.BeforeStrict | src/local_agent_lab/home_mcp.py:220-243 | items of different sources never rank equal |
| ContextMerge.BestUnique | src/local_agent_lab/home_mcp.py:215-217 | the returned list is determined by the sources alone, whatever order the dictionaries have |
| NoteNames.NoteFolder.UniqueMarkdownPath | src/local_agent_lab/home_mcp.py:3263-3272 | the search ends for every folder with an absent name of least free suffix |
| NoteNames.NoteFolder.CreateMarkdownNote | src/local_agent_lab/home_mcp.py:827-866 | creating a note adds one file, front matter and stripped body, under the least free name, and changes no other |
| NoteNames.NameInjective | src/local_agent_lab/home_mcp.py:3267-3271 | different suffixes give different names |
| NoteNames.SlugShape | src/local_agent_lab/home_mcp.py:3520-3522 | a slug is never empty and holds only lower-case letters, digits and single inner hyphens |
| ReleaseEvidence.RecordChecks | scripts/build_release_evidence_manifest.py:357-360 | every failed check adds one blocker, every passed one none |
| ReleaseEvidence.ArtifactRecord | scripts/build_release_evidence_manifest.py:334-464 | an artifact's record and blockers, or what ends the evaluation: an unreadable path, a timestamp or age limit out of range, or a rule that cannot be evaluated |
| ReleaseEvidence.RepositoryGates | scripts/build_release_evidence_manifest.py:319-331 | one blocker for each missing file and one for a dirty worktree, with the digests of the others, unless a read fails in an uncaught way |
| ReleaseEvidence.BuildManifest | scripts/build_release_evidence_manifest.py:486-528 | the manifest of all policies in order, or the first thing that ended its evaluation |
| ReleaseGates.GatePassed | scripts/build_release_evidence_manifest.py:334-464 | a gate passes exactly when all checks of a readable artifact passed, and has as many blockers as faults |
| ReleaseGates.ChecksMeaning | scripts/build_release_evidence_manifest.py:362-449 | the checks all pass exactly when the artifact shows everything asked of it |
| ReleaseGates.BlockerAccounting | scripts/build_release_evidence_manifest.py:486-528 | blockers number failed checks plus missing and invalid artifacts plus missing files plus the dirty flag |
| ReleaseGates.ReleaseReady | scripts/build_release_evidence_manifest.py:506-528 | a release is ready exactly in final mode without blockers, that is, with a clean repository and every policy met |
| ReleaseGates.ManifestBuilt | scripts/build_release_evidence_manifest.py:288-312 | a manifest is built exactly when no read fails in an uncaught way and every readable artifact has evaluable rules and a timestamp that stays within the calendar |
| ReleaseGates.TimestampAborts | scripts/build_release_evidence_manifest.py:197-205 | a readable artifact and no rule at all, but a timestamp that has no name in UTC: no manifest is built |
| ReleaseGates.ContainsMeaning | scripts/build_release_evidence_manifest.py:307-308 | `contains` passes exactly when every expected text is among the items of a list of hashable values |
| ReleaseGates.SetEqMeaning | scripts/build_release_evidence_manifest.py:303-306 | `set_eq` passes exactly for a list of the expected texts in some order, none twice |
| ReleaseGates.MinimumMeaning | scripts/build_release_evidence_manifest.py:292-302 | integer and fractional bounds are met by numbers only, never by truth values |
| Sorting.SortSorted | src/local_agent_lab/promotion_controller.py:343 | Python's sort orders its input |
| Sorting.SortPermutes | src/local_agent_lab/promotion_controller.py:343 | Python's sort keeps every element |

## Left out

- File descriptors, permissions, fsync, symbolic links, subprocess calls, HTTP serving, command lines: replaced by stores and arbitrary successes and failures.
- Administration helper: reading the configuration, rejecting environment variables, and the text of errors; the operator's name in the audit record is one of the constants of its encoding.
- Concurrent writers of a capture session: one actor, whose runs may be cut between any two writes.
- BakeCam.BakeStore.CaptureNow: the images themselves, the `latest` pointers, the trace events, `resolve_device` in a capture (it raises before any write), and the `upload_status` of a capture.
- NoteNames.NoteFolder.UniqueMarkdownPath: a folder is a map from names to contents, so names that differ only in case are different files.
- Text.Lower: lower-casing acts on ASCII letters, digits are ASCII digits; other alphabets are covered only where folding or the alphabet is an arbitrary function.
- CorpusOverlap.ScanCandidate: takes the objects as given; the count of tracked files and the enumeration of Git objects are left out.
- CorpusOverlap.PrivateFingerprints: takes the messages as given; reading exports and archives, Unicode normalization and decoding are not part of this model.
- RecipeCard.ExtractRecipeStructure: the derived summary, tags and confidence are not modelled; neither are `_validate_recipe_card` and the step heuristics.
- RecipeTheorem.RoundTrip: is about cards whose texts direct nothing in the parser (single-line plain items, neutral summary, notes and source lines); the extracted notes, which also hold the summary and the glance lines, are not part of the claim.
- AttemptNotes.ExtractedExactly: is about plain stamps and values and comma-free tags; the notes are arbitrary.
- ContextMerge.SlotExpandedContextItems: scores are numbers; a score that is no number is taken as zero before the merge, NaN does not occur, and the retrieval diagnostics are left out.
- ReleaseEvidence.ArtifactRecord: the displayed actual and expected values, digests and ages of the records are not modelled, only names, verdicts and codes; the policy table is arbitrary, with age limits in whole hours.
- ReleaseEvidence.BuildManifest: the repository's identity is given, as is the validation time; limits of the interpreter itself, such as its recursion depth, are not part of this model.
- PromotionController.BuildPromotionPlan: wording of the controller's reasons, the textual rollback steps, and the branch that tests two constant fields of a gate decision are left out; the wording of gate reasons is kept as own or foreign, because the controller compares decisions.
- PromotionController.AssessPromotionExecution: timestamps are read by an arbitrary function into one time line.
- `trusted_promotion.py`, the memory modules, `staging_snapshot.py`, the release scripts around Git, and the HTML and text renderers.
