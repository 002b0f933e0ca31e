# RefundDesk verification model

A Dafny model of RefundDesk: the refund execution and reconciliation protocol
between the web service, the worker, PostgreSQL and Stripe; the edge admission
gate in front of it; nonce-based mutation idempotency; and the exact conversion
of typed amounts. `dafny verify dfyconfig.toml` checks everything.

## How it is organised

| files | what they hold |
|---|---|
| `Domain`, `Observation`, `Execution`, `Attestation` | the pure policies: workflow and effect tables, guard release, quorum, freshness of Stripe observations, the request-version check, approval attestations |
| `RefundRow` | one refund request with its execution, attempts and candidates, and each store transaction on it as a function that is `None` when the transaction throws |
| `RowInvariant`, `RowTheorems`, `VersionAccounting` | the inductive invariant of a row and the theorems over every interleaving of row transactions |
| `AbsenceCore`, `AbsenceTruth` | a row against the refund Stripe really holds and the scans that list it, in real time |
| `Tenant`, `TenantTheorems`, `FourEyes` | all requests of a tenant with people, installations and alerts, as one transition system, and the theorems over its runs |
| `StripeEffects`, `StripeFailure` | worker jobs and Stripe as a map from idempotency key to refund; error classification |
| `PaymentProtection` | external refunds keep their payment closed |
| `ApprovedRefunds` | the end-to-end theorem: every refund was signed off by a second person |
| `WorkerStore`, `RefundWorker` | the same operations as they run: a class of guarded UPDATE statements and rolled-back transactions, and the execution job with its crash points, each proved to be a step of the transition system |
| `RowOutcomes`, `TenantOutcomes`, `ScanOutcomes` | what the operations achieve: for each of them when it succeeds and where it leaves the request, stated on columns |
| `Scanner` | the paged listing, the checkpoint row, racing scans |
| `EdgeAdmission`, `EdgeGate` | the admission gate as a specification with its run theorems, and as the mutable object that refines it |
| `MutationIntent`, `MutationReceipts` | the client's intent registry and the server's receipts |
| `Money` | decimal text and minor units |

Every store method is one atomic step and a thrown error changes nothing. The
theorems quantify over every sequence of steps of every actor, with any number
of attempts alive at once; where a property needs more (an honest Stripe, a
clock whose lead is bounded) the assumption is a named predicate in the statement.

## Results worth knowing

- A refusal that Stripe gave to an *older* attempt, recorded late, while a newer
  attempt has crossed the boundary, is taken as proof that the request has no
  effect. `AbsenceTruth.LateRefusalReleasesGuardOverLiveRefund` is a complete
  run in which the request ends as failed with its payment guard released while
  the newer attempt's refund exists. `AbsenceTruth.RefusalProvesAbsenceIffNewest`
  gives the exact condition: the refusal must belong to the newest attempt.
- Delivery order matters: an older failure that arrives after a newer success is
  dropped (`Observation.DeliveryOrderMatters`). What never happens is that the
  stored rank goes down. `Observation.DeliveriesCommuteIff` says exactly when two
  deliveries commute, and `Observation.CoherentStreamsIgnoreOrder` which streams
  may be delivered in any order.
- An open linked refund stops being refreshed exactly when its link is first
  written after the request had been closed as absent
  (`RowTheorems.OnlyLateLinksAreAbandoned`);
  `AbsenceTruth.LateAnswerIsNeverRefreshed` is such a run with a live refund.
- Rotating the key that signs refund proofs between two attempts changes the
  metadata sent under the same idempotency key. That is the only way a call can
  meet a parameter conflict (`StripeEffects.CallConflictsIffRotated`); the worker
  then records an ambiguous failure, and there is still at most one refund.
- The one-hour overlap of scans is exactly the sum of listing delay and clock
  lead that can be tolerated (`Scanner.CoveredIffSlackFits`).
- A mutation that returns a status of 500 or more without throwing commits its
  effect without a receipt, so that the same nonce can commit again;
  `MutationReceipts.FinalIffReceipted` and
  `MutationReceipts.CommitIsReceiptedIffBelow500` give the exact condition. The
  seven mutations of the repository return 200, so they meet it.
- A request whose effect was declared absent by a retryable refusal and for which
  a scan then sights one refund makes every scan that lists that refund throw when
  it commits, so the checkpoint of its installation does not move.
  `ScanOutcomes.ScanCannotCommitIff` says that this is the only way a commit can
  fail, and `RowOutcomes.RefusedThenSightedIsStuck` that it is reached.
- The boundary never answers that a refund is already identified: the approval
  gate, which is read first, refuses every request with a linked refund
  (`TenantOutcomes.AlreadyIdentifiedIsNeverAnswered`).
- Some checks can never fail: the three counts compared after a settlement, the
  closing compare-and-set of a checkpoint, the idempotency comparison at the
  effect boundary, and the payment-protection trigger on updates.

## Model

| member | source | states |
|---|---|---|
| Domain.EveryDecisionRunIsQuorate | packages/domain/src/workflow.ts:182-230 | over every run of decisions from an empty list: pending means only approvals, by pairwise distinct non-requesters before expiry, fewer than required; approved means exactly the required number; rejected means one last rejection |
| Domain.DecisionKeepsQuorum | packages/domain/src/workflow.ts:182-230 | one accepted decision keeps the quorum invariant |
| Domain.DecisionAcceptedIff | packages/domain/src/workflow.ts:182-214 | a decision is accepted if and only if the workflow is pending and not expired, the approver is neither the requester nor one who decided before, and a rejection carries a justification of at least ten characters |
| Domain.AcceptedDecisionCounts | packages/domain/src/workflow.ts:215-230 | an accepted decision is appended; a rejection rejects, an approval approves exactly when it completes the quorum |
| Domain.WorkflowMovesAreExact | packages/domain/src/workflow.ts:13-122 | a status change is possible under some evidence if and only if it is one of the listed moves |
| Domain.EffectMovesAreExact | packages/domain/src/effect.ts:9-58 | the same for the effect state |
| Domain.MovesNeedEvidence | packages/domain/src/workflow.ts:50-122 | success needs a confirmed refund, failure and staleness need absence, a resumption needs proven absence, and a succeeded request fails only because its own linked refund did |
| Observation.StreamNeverRegresses | packages/db/src/tenant-repositories.ts:249-295 | no stream of observations in any order lowers the stored rank (null, open, succeeded, canceled, failed) or moves the event watermark back |
| Observation.AppliesIffNewerOrHigher | packages/db/src/tenant-repositories.ts:249-295 | a delivery is applied if and only if it is not older than the watermark and ranks higher, repeats the status, or exchanges one open status for the other at another time |
| Observation.FailureIsFinal | packages/db/src/tenant-repositories.ts:266-268 | a stored failure survives every stream |
| Observation.DeliveryOrderMatters | packages/db/src/tenant-repositories.ts:258-264 | a concrete pair: an older failure and a newer success store different statuses in the two orders |
| Observation.DeliveriesCommuteIff | packages/db/src/tenant-repositories.ts:249-295 | for every stored pair and any two deliveries the two orders store the same status if and only if a condition on their statuses, their times and the stored pair holds |
| Observation.DeliveriesAgreeIff | packages/db/src/tenant-repositories.ts:249-295 | the same for status and watermark together |
| Observation.RearrangementKeepsOutcome | packages/db/src/tenant-repositories.ts:249-295 | a stream rearranged by swaps of neighbours that commute where they are delivered stores the same |
| Observation.CoherentIffAlwaysCommute | packages/db/src/tenant-repositories.ts:249-295 | two events commute in every stored state if and only if the higher-ranked one is not older and two open statuses have different times |
| Observation.CoherentStreamsIgnoreOrder | packages/db/src/tenant-repositories.ts:249-295 | events that pairwise satisfy this store the same in every order of delivery |
| Observation.DroppedObservationIsHarmlessIff | apps/worker/src/db-store.ts:372-403 | an observation dropped by the worker's filter would have left the repository's stored status unchanged, if and only if the stated equal-second case does not hold; in that case the stored status is still open |
| Observation.FilterDropsWhatItLoses | apps/worker/src/db-store.ts:386-403 | in that equal-second case the filter does drop the observation although the repository would have stored its status |
| Observation.FilterPassesIff | apps/worker/src/db-store.ts:372-403 | the filter passes a scan exactly when the status changed, and an event exactly when it is first, newer, or equally old and raises the status to canceled or failed |
| Execution.AttemptsAreWellFormed | apps/worker/src/db-store.ts:178-189 | the loop decides whether attempts are numbered from one and none is completed or terminal |
| Execution.AccumulateRevisionCost | apps/worker/src/db-store.ts:196-226 | the loop computes the sum of the costs of resolved attempts, or fails when one has none |
| Execution.ApprovalAttestationRequestVersionIsCompatible | apps/worker/src/db-store.ts:141-253 | the imperative check decides the specification predicate that the version-accounting theorems are about |
| Execution.CostClosedForm | apps/worker/src/db-store.ts:196-226 | the accumulated cost is four revisions an attempt less two for each retryable failure |
| RowInvariant.TxKeepsSound | packages/db/src/tenant-repositories.ts:980-1315 | every transaction keeps the row invariant: guard by policy, effect identified only with a linked refund, execution exactly once crossed, linked candidates are the linked refund, attempts numbered |
| RowInvariant.RunKeepsSound | packages/db/src/tenant-repositories.ts:980-1315 | so does every interleaving |
| RowTheorems.TxRefinesDomain | packages/db/src/tenant-repositories.ts:1119-1315 | every transaction on a sound row is at most three transitions that the domain's workflow and effect tables allow with their evidence |
| RowTheorems.EveryRunRefinesDomain | packages/domain/src/workflow.ts:13-122 | the same after any run of any actors |
| RowTheorems.EveryRunReleasesGuardExactlyByPolicy | packages/domain/src/effect.ts:70-92 | in every reachable state the guard is released if and only if the policy function says so |
| RowTheorems.EveryRunAdvances | packages/db/src/tenant-repositories.ts:1141-1173 | over every run the link is written once, the status rank and event watermark never go back, candidates keep their tuple and only move up, attempts finish once and none disappears, a released guard keeps its time, the version never decreases |
| RowTheorems.CrossingsAreSeparatedByAbsenceProof | apps/worker/src/db-store.ts:720-821 | between any two boundary crossings of a request lies a recorded absence proof |
| RowTheorems.OnlyLateLinksAreAbandoned | packages/db/src/tenant-repositories.ts:2172-2209 | a transaction leaves an open link that is no refresh target if and only if, before it, the request is closed as absent without a link and the transaction is the answer of a still started attempt with an open status, or a covering scan resolution of a single seen, unproven candidate with an open status |
| RowTheorems.OpenLinksStayRefreshTargets | packages/db/src/tenant-repositories.ts:2172-2209 | through every run without such a transaction every open linked refund stays a refresh target, and the first such transaction abandons its refund |
| RowOutcomes.EveryExecutingRequestIsOpen | packages/db/src/tenant-repositories.ts:1175-1315 | over every run from a new row a request that is executing has no settled refund |
| RowOutcomes.AnswerConcludes | packages/db/src/tenant-repositories.ts:1119-1315 | the answer of a started attempt of an executing, unlinked request with a possible effect: succeeded ends it succeeded with guard and terminal time at once, failed or canceled ends it failed with the guard released, an open status keeps it executing and identified, an unknown one sends it to reconciliation; link, status, attempt and version are as stated |
| RowOutcomes.AnswerWhileReconciling | packages/db/src/tenant-repositories.ts:1206-1245 | the same answer to a request that was diverted meanwhile stores the link and status and keeps it reconciling with its guard held |
| RowOutcomes.IdentifyConcludes | packages/db/src/tenant-repositories.ts:1119-1315 | every welcome observation of an executing request, or a resolving one of a reconciling request, stores the status and concludes the request by it |
| RowOutcomes.IdentifyPreserves | packages/db/src/tenant-repositories.ts:1206-1245 | one that does not resolve keeps a reconciling request reconciling and marks its effect identified |
| RowOutcomes.IdentifyCorrects | packages/db/src/tenant-repositories.ts:1178-1197 | a failed or canceled status of a succeeded request corrects it to failed with its effect absent |
| RowOutcomes.RefreshConcludes | apps/worker/src/db-store.ts:1469-1541 | a refresh of the linked refund with a status that does not rank lower concludes, preserves or corrects the request by its own status |
| RowOutcomes.ClassificationIff | apps/worker/src/db-store.ts:1180-1219 | each class of a sighting if and only if a condition on metadata, proof, tuple and link: external without metadata or proof, tampered when something contradicts the request, otherwise candidate, the linked refund or a replay by the link |
| RowOutcomes.ExactSightingLinks | apps/worker/src/db-store.ts:1276-1330 | an event with the request's own idempotency key links its refund and concludes an executing request by its status, without an alert |
| RowOutcomes.InexactSightingDiverts | apps/worker/src/db-store.ts:1276-1403 | any other genuine sighting of an unlinked running request sends it to reconciliation unlinked, with a tampering alert for a foreign key and a replay alert for a second candidate |
| RowOutcomes.KnownSightingConcludes | apps/worker/src/db-store.ts:1339-1379 | a sighting of the linked refund that is let through stores its status and concludes an executing request, keeps a reconciling one and corrects a succeeded one |
| RowOutcomes.FirstSightingIsRecorded | packages/db/src/tenant-repositories.ts:1331-1372 | a first sighting leaves on record its own tuple, status, time, evidence and window |
| RowOutcomes.RecordingMarks | packages/db/src/tenant-repositories.ts:1424-1442 | recording adds exactly one candidate, and with several none stays pending |
| RowOutcomes.MergedStatusIsLatest | packages/db/src/tenant-repositories.ts:1374-1423 | over every sequence of repeated sightings the merged status is that of the observation made last, and exact evidence outweighs a mismatch, which outweighs none |
| RowOutcomes.MergedWindowIsLatest | packages/db/src/tenant-repositories.ts:1382-1388 | the merged candidate remembers the latest window that saw it |
| RowOutcomes.MergedEventIsDecided | packages/db/src/tenant-repositories.ts:1393-1423 | the merged event is that of the last exact sighting or, without one, the newest |
| RowOutcomes.PlainTxAchieves | packages/db/src/tenant-repositories.ts:980-1117 | every transaction without a refund observation does to a sound row exactly what its columns allow, and nothing otherwise |
| RowOutcomes.SingleCandidateLinks | packages/db/src/tenant-repositories.ts:1566-1619 | the resolution of a single unproven, seen candidate links it and concludes the request by its status, or keeps it reconciling when the payment has an alert |
| RowOutcomes.ConflictingCandidatesStay | packages/db/src/tenant-repositories.ts:1575-1592 | contradictory or several candidates are never linked |
| RowOutcomes.ResolutionThrowsIff | packages/db/src/tenant-repositories.ts:1549-1608 | the resolution of one request throws if and only if its effect was declared absent and a single unproven candidate without an alert was sighted |
| RowOutcomes.RefusedThenSightedIsStuck | apps/worker/src/db-store.ts:876-889 | a retryable refusal followed by a scan's sighting reaches such a request |
| ScanOutcomes.ScanResumesCoveredAmbiguity | packages/db/src/tenant-repositories.ts:1488-1565 | every committed scan puts every reconciling, possible, unlinked, never sighted request of its installation whose execution lies in the window and whose payment has no alert back to execution: effect absent, execution start at the scan's time, version plus two |
| ScanOutcomes.ScanHoldsAlertedAmbiguity | packages/db/src/tenant-repositories.ts:1549-1554 | with an alert on the payment the same request is unchanged |
| ScanOutcomes.ScanLinksSingleCandidate | packages/db/src/tenant-repositories.ts:1566-1619 | a single unproven candidate seen in the window ends linked with its status, concluding the request unless there is an alert |
| ScanOutcomes.ScanLeavesTheRest | packages/db/src/tenant-repositories.ts:1479-1537 | a request that is not covered, linked, never crossed, or neither seen nor ambiguous in the installation is unchanged |
| ScanOutcomes.ScanCannotCommitIff | packages/db/src/tenant-repositories.ts:1473-1622 | a scan's commit throws if and only if some request seen by it was declared absent and has a single unproven candidate and no alert |
| AbsenceTruth.LateAnswerIsNeverRefreshed | packages/db/src/tenant-repositories.ts:2185-2194 | a complete run in which a live pending refund is linked to a closed request and is not a refresh target |
| VersionAccounting.AcceptedIffNoDrift | apps/worker/src/db-store.ts:141-253 | the check accepts a row if and only if its actual revisions equal the expected ones |
| VersionAccounting.ReconcilingAcceptedIffNoDrift | apps/worker/src/db-store.ts:141-253 | for a reconciling row: if and only if revisions match and the latest attempt is started or ambiguous |
| VersionAccounting.AtMostOneVersionAccepted | apps/worker/src/db-store.ts:157-252 | for a status, effect and attempts at most one version is accepted |
| VersionAccounting.TxKeepsDrift | packages/db/src/tenant-repositories.ts:980-1059 | every transaction but the approval conserves actual minus expected revisions |
| VersionAccounting.UntrackedRevisionIsRejectedForever | apps/worker/src/db-store.ts:157-252 | one untracked revision makes the check false in every later executable state of every run |
| VersionAccounting.HonestRunsAreAccepted | apps/worker/src/db-store.ts:141-253 | in every reachable executable state without a linked refund the attested version is accepted |
| AbsenceTruth.WindowSurvivesFlooring | apps/worker/src/reconciliation-scanner.ts:51-53 | flooring to seconds drops no instant of the window |
| AbsenceTruth.ScanAbsenceIsTruthful | packages/db/src/tenant-repositories.ts:1473-1565 | if the resolution of a finished scan puts a reconciling request back to execution, Stripe holds no refund for it |
| AbsenceTruth.ListKeepsTruth | apps/worker/src/reconciliation-scanner.ts:141-181 | a listing that ends has recorded the request's refund as a candidate whenever its second lies in the window, because the store records what it observes |
| AbsenceTruth.FinishedScanLeftTrace | packages/db/src/tenant-repositories.ts:1496-1534 | a refund created in the window of any finished scan is among the candidates |
| AbsenceTruth.StepKeepsTruth | packages/db/src/tenant-repositories.ts:1473-1565 | every honest, timely event (store transaction, creation at Stripe, start of a scan, listing) keeps: unlinked absence is true, earlier attempts can create nothing any more, an existing refund lies between execution start and safe boundary, finished scans left their trace |
| AbsenceTruth.RecordedAbsenceIsTrue | packages/domain/src/effect.ts:60-92 | over every such run an unlinked request recorded absent, or with its guard released, has no refund in Stripe |
| AbsenceTruth.LateRefusalReleasesGuardOverLiveRefund | apps/worker/src/db-store.ts:906-923 | a run in which a late refusal of an older attempt closes the request over the newer attempt's refund |
| AbsenceTruth.RefusalProvesAbsenceIffNewest | apps/worker/src/db-store.ts:876-923 | in every truthful state a refusal proves absence if and only if it is the newest attempt's |
| AbsenceCore.ListedWorkerRefundLeavesCandidate | packages/db/src/tenant-repositories.ts:1317-1442 | observing the worker's own refund leaves a candidate that no later run removes |
| TenantTheorems.StepShape | apps/worker/src/ports.ts:239-243 | every step of every actor creates one request, approves one, crosses one boundary through the open gate, or moves rows by other row transactions |
| TenantTheorems.EveryTenantRunKeepsGuards | apps/platform/src/server/pilot-prisma-repository.ts:699-763 | in every interleaving at most one request a payment and environment holds an unreleased guard, and all rows are sound |
| TenantTheorems.DeauthorizationSettlesEverything | packages/db/src/tenant-repositories.ts:427-517 | when a deauthorization commits no request remains pending, approved or executing |
| TenantTheorems.OnlyOpenGateCrosses | apps/worker/src/db-store.ts:728-773 | a request gains an attempt only by a boundary step through the authorization gate |
| TenantTheorems.DeauthorizedTenantNeverCrosses | packages/db/src/tenant-repositories.ts:578-630 | until a reauthorization no interleaving, scan resumptions included, crosses any boundary |
| TenantOutcomes.CreationAcceptedIff | apps/platform/src/server/pilot-prisma-repository.ts:699-763 | a request is created if and only if tenant and sandbox installation are active, the identifier is new, one approval is required and somebody else can give it, nobody holds the payment and no alert touches it |
| TenantOutcomes.DecisionAcceptedIff | apps/platform/src/server/pilot-prisma-repository.ts:785-866 | a decision is accepted if and only if an enabled approver other than the requester decides a pending request, an approval before expiry with an attestation of this version |
| TenantOutcomes.CancellationAcceptedIff | packages/db/src/tenant-repositories.ts:791-812 | only the requester cancels, and only a pending request |
| TenantOutcomes.SignsIff | apps/worker/src/db-store.ts:464-570 | the worker signs if and only if the approver's view of the request is current and the two people are different, known and enabled |
| TenantOutcomes.SignedPayloadIsTheRequest | apps/worker/src/db-store.ts:562-620 | the signed payload, field by field: the request as it stands, the approver and the requester each by their own two identifiers, and a lifetime that ends with the attestation or the request, whichever is first |
| TenantOutcomes.AttestedDecisionSucceeds | apps/platform/src/server/pilot-prisma-repository.ts:785-866 | an approval inside the attestation window of what was just signed is accepted |
| TenantOutcomes.LoadClaimsApproved | apps/worker/src/db-store.ts:642-718 | loading a validly approved request leaves it executing with its start time and hands its record out |
| TenantOutcomes.BoundaryExecutesFirst | apps/worker/src/db-store.ts:720-821 | its boundary answers execute for the first attempt and records key and parameters |
| TenantOutcomes.HonestApprovalExecutes | apps/worker/src/db-store.ts:461-821 | signing, deciding in the window, loading and crossing lead to the first attempt for every request, approver and key |
| TenantOutcomes.ApprovalValidIff | apps/worker/src/db-store.ts:255-339 | the gate accepts an approval if and only if each stored field agrees with the request, the people, the installation and the token |
| TenantOutcomes.BoundaryAnswers | apps/worker/src/db-store.ts:722-772 | the boundary's answer and effect in every state that does not execute |
| TenantOutcomes.ExecuteStartsNewAttempt | apps/worker/src/db-store.ts:786-819 | the attempt it names is the new one, numbered after all earlier ones |
| TenantOutcomes.AlreadyIdentifiedIsNeverAnswered | apps/worker/src/db-store.ts:749-761 | no state answers that the refund is already identified |
| TenantOutcomes.UnsafeRetryIsDiverted | apps/worker/src/db-store.ts:762-769 | a request recorded under another key is diverted by loading and by the boundary, never executed |
| TenantOutcomes.LoadDivertsOrphans | apps/worker/src/db-store.ts:642-718 | loading never leaves an orphaned possible effect executing |
| TenantOutcomes.RecoveryDivertsOrphans | packages/db/src/tenant-repositories.ts:2115-2170 | recovery diverts exactly the orphaned possible effects |
| TenantOutcomes.FailureIsRecorded | apps/worker/src/db-store.ts:876-923 | the failure of an attempt under way is never refused and leaves the request in the status of its class |
| TenantOutcomes.AnswerIsRecorded | apps/worker/src/db-store.ts:823-874 | nor is its answer when no other refund was sighted, and the request ends by the refund's status |
| TenantOutcomes.RecordedAnswerLinks | apps/worker/src/db-store.ts:823-874 | a recorded answer leaves the request linked to the answered refund |
| TenantOutcomes.AnswerExposesReplays | apps/worker/src/db-store.ts:846-863 | and every other candidate of the request on record as a proof replay |
| TenantOutcomes.ReplaysAreRecorded | apps/worker/src/db-store.ts:846-863 | each listed replay is on record with its own payment, amount, currency and time |
| TenantOutcomes.ExternalRefundRecordedIff | packages/db/src/tenant-repositories.ts:1807-2012 | an external refund is recorded if and only if it lies in the past, in a known sandbox installation, and contradicts no earlier record; then exactly its payment's requests are settled |
| TenantOutcomes.UnknownSightingIsRecorded | apps/worker/src/db-store.ts:1206-1403 | a sighting that names no known request is on record, as external or as tampered |
| TenantOutcomes.NamedSightingIsRecorded | apps/worker/src/db-store.ts:1381-1403 | a sighting that names a request is on record under the class its observation asks for |
| TenantOutcomes.DeauthorizationAppliesIff | packages/db/src/tenant-repositories.ts:578-630 | a deauthorization applies if and only if no newer event and no other deauthorization of the same instant came before |
| TenantOutcomes.RefreshAcceptedIff | apps/worker/src/db-store.ts:1469-1541 | a refresh is accepted if and only if the request is of the installation, in an active context, linked to that refund and of the same tuple |
| PaymentProtection.EveryRunProtectsPayments | packages/db/prisma/migrations/20260725154000_initial_pilot/migration.sql:759-791 | over every interleaving no request is pending, approved or executing on a payment with an unresolved external, tampered or replayed refund, so the trigger never rejects a later update |
| PaymentProtection.NoEffectOnProtectedPayment | packages/db/src/tenant-repositories.ts:1807-2012 | the boundary never answers execute for such a payment |
| FourEyes.HistoryKeeps | apps/worker/src/db-store.ts:461-625 | over every history every stored token was signed and every signed payload is consistent, for one approval, within the attestation lifetime; its fields are those of TenantOutcomes.SignedPayloadIsTheRequest |
| FourEyes.EveryCrossingHasFourEyes | apps/worker/src/db-store.ts:255-339 | whatever steps and whatever rewriting of requests, people and installations came before, if the boundary answers execute, the request's payment, amount, currency and reason equal a signed snapshot by an enabled second person, decided inside the attestation window, which ends no later than the request's expiry |
| StripeEffects.KeysIdentifyRequests | packages/domain/src/refund-proof.ts:129-136 | two requests share an idempotency key if and only if their identifiers agree up to case |
| StripeEffects.CrossingRecordsCall | apps/worker/src/db-store.ts:774-803 | a crossing durably records the request's own key and parameters or keeps those recorded before |
| StripeEffects.AtMostOneRefundPerRequest | apps/worker/src/refund-execution.ts:171-271 | over every run of concurrent, crashing and retrying jobs Stripe holds at most one refund a request |
| StripeEffects.EveryRefundIsWrittenAhead | apps/worker/src/refund-execution.ts:168-222 | every refund's request had durably recorded the refund's key and parameters, and they are the request's own payment, amount, currency, reason and account |
| StripeEffects.BoundaryNeverThrows | apps/worker/src/db-store.ts:720-821 | over every run the boundary never meets an idempotency conflict and executes exactly the executing, unlinked requests with an open gate and a certainly absent effect |
| ApprovedRefunds.EveryRefundWasApproved | apps/worker/src/refund-execution.ts:171-222 | over every run each refund Stripe holds is for the payment, amount, currency and reason in a payload signed for a second person |
| ApprovedRefunds.ActKeepsApproved | apps/worker/src/db-store.ts:720-821 | every store step keeps: a request that ever crossed the boundary has a signed payload for its own snapshot |
| StripeEffects.EveryAnswerNamesTheSameRefund | apps/worker/src/refund-execution.ts:211-222 | all answers to one request name one refund, whatever signing keys were rotated in between |
| StripeEffects.CallConflictsIffRotated | packages/domain/src/refund-proof.ts:76-78 | after any run a call meets a parameter conflict if and only if the refund under its key carries a proof of another signing version |
| StripeEffects.OneVersionNeverConflicts | apps/worker/src/refund-execution.ts:196-222 | without a rotation no call of any run conflicts |
| StripeFailure.AbsenceIsClaimedExactlyForRefusals | packages/domain/src/error-classification.ts:27-63 | after the boundary an error is not ambiguous if and only if it is a definite refusal by Stripe with neither 409 nor a server status; before it nothing is ambiguous |
| StripeFailure.OnlyRateLimitsRetryAfterBoundary | apps/worker/src/stripe-failure.ts:20-96 | after the boundary only rate limits are retried |
| StripeFailure.RetriesExactly | apps/worker/src/stripe-failure.ts:80-96 | which errors are retried, before and after the boundary, if and only if a condition on kind and status code |
| WorkerStore.StatementIsOneLegalTransition | packages/db/src/tenant-repositories.ts:980-1059 | each of the seven single-row guarded updates (claim, divert, resume, effect possible, the two absence proofs, terminal failure), when its guard lets it write a sound row, is exactly one transition of the domain tables, counted by one version, that keeps the guard policy and moves nothing else |
| WorkerStore.StatementsNeedAnOpenRequest | packages/db/src/tenant-repositories.ts:814-839 | none of them writes to a closed request, and the two absence proofs exclude each other |
| WorkerStore.AttemptFinishesOnce | packages/db/src/tenant-repositories.ts:1100-1117 | a finished attempt cannot be finished again, and every other attempt keeps its state |
| WorkerStore.LinkingNeverDowngrades | packages/db/src/tenant-repositories.ts:1444-1464 | linking a candidate never takes a state back, is idempotent and leaves the other candidates alone |
| WorkerStore.TenantStore.MarkRefundIdentified | packages/db/src/tenant-repositories.ts:1119-1173 | the stepwise update succeeds exactly when the specification does and leaves its row: a welcome observation concludes an executing request by its status and keeps a reconciling one, as stated on the columns |
| WorkerStore.TenantStore.ConvergeRequest | packages/db/src/tenant-repositories.ts:1175-1315 | the branch of guarded request updates after a stored observation: succeeded closes with the guard released, failed or canceled closes as absent, open keeps it executing, unknown diverts |
| WorkerStore.TenantStore.RecordCorrelationCandidate | packages/db/src/tenant-repositories.ts:1317-1442 | upsert, tuple check, merge and conflict marking equal the specification |
| WorkerStore.TenantStore.RecordRetryableAttemptFailure | apps/worker/src/db-store.ts:876-889 | throws unless both updates matched, and then changes nothing |
| WorkerStore.TenantStore.RecordAmbiguousAttemptFailure | apps/worker/src/db-store.ts:891-904 | throws unless both updates matched, and then changes nothing |
| WorkerStore.TenantStore.RecordTerminalAttemptWithoutEffect | apps/worker/src/db-store.ts:906-923 | throws unless all three updates matched, and then changes nothing |
| WorkerStore.TenantStore.RecordTerminalWithoutEffect | apps/worker/src/db-store.ts:925-938 | throws if and only if the update does not apply and the request had not already failed, which is if and only if it has not failed afterwards |
| WorkerStore.TenantStore.RecordReconciliationRequired | apps/worker/src/db-store.ts:940-950 | throws if and only if the update does not apply and the request was not already reconciling, which is if and only if it is not reconciling afterwards |
| WorkerStore.TenantStore.SettleRequests | packages/db/src/tenant-repositories.ts:449-516 | the three bulk updates together settle every request in scope and their counts always agree with the rows locked before |
| WorkerStore.TenantStore.ApplyDeauthorization | packages/db/src/tenant-repositories.ts:578-630 | lifecycle order decides whether it applies; then tenant and installation are inactive and every request is settled |
| WorkerStore.TenantStore.RecordExternalRefund | packages/db/src/tenant-repositories.ts:1807-2012 | a conflicting alert throws; otherwise the alert is stored and exactly the payment's requests are settled |
| WorkerStore.TenantStore.LoadExecution | apps/worker/src/db-store.ts:642-718 | the state after loading, and when a record is handed out |
| WorkerStore.TenantStore.PersistBoundary | apps/worker/src/db-store.ts:720-821 | the state and the decision of the effect boundary in every branch |
| WorkerStore.TenantStore.WriteAhead | apps/worker/src/db-store.ts:774-819 | execution row, effect and attempt are written together or not at all, and the effect update cannot fail |
| WorkerStore.TenantStore.RaiseReplayAlerts | apps/worker/src/db-store.ts:846-863 | the loop over the other candidates raises one alert each, or throws |
| WorkerStore.AnswerOrderIsImmaterial | apps/worker/src/db-store.ts:846-873 | finishing the attempt before or after the replay alerts gives the same state and the same failures |
| WorkerStore.TenantStore.RecordIdentified | apps/worker/src/db-store.ts:823-874 | the answer in the store's own order refines the specification; a throw undoes everything |
| WorkerStore.TenantStore.ObserveUnlinkedRefund | apps/worker/src/db-store.ts:1276-1338 | exact evidence links and makes the others replays; anything else diverts, with an alert on a conflict |
| WorkerStore.TenantStore.ObserveKnownRefund | apps/worker/src/db-store.ts:1339-1379 | a sighting of the linked refund keeps or raises the candidate's state and stores the status unless already handled |
| WorkerStore.TenantStore.ObserveNamed | apps/worker/src/db-store.ts:1173-1379 | what a sighting does to the request it names |
| WorkerStore.TenantStore.ObserveSighting | apps/worker/src/db-store.ts:1113-1428 | the whole observation transaction with its alerts, undone when it throws |
| WorkerStore.TenantStore.ObserveLinkedSighting | apps/worker/src/db-store.ts:1469-1541 | the refresh lane of a linked refund |
| WorkerStore.TenantStore.ResolveOne | packages/db/src/tenant-repositories.ts:1513-1618 | one iteration of the resolution loop, with its verdict |
| WorkerStore.TenantStore.ResolveUniqueRefundCandidates | packages/db/src/tenant-repositories.ts:1473-1622 | the loop resolves exactly the selected requests, independently of their order; every covered, unsighted, unalerted ambiguity ends executing with its effect absent and is counted as resolved; the counters mean what they say, and a throw undoes the commit |
| RefundWorker.Worker.CallAndRecord | apps/worker/src/refund-execution.ts:207-271 | one send and then exactly the record of its reply: the returned refund with its id and status, or the failure transaction of the caught error's class; the store threw if and only if it refuses that record; absence is recorded only for a definite refusal; a recorded answer leaves the request linked |
| RefundWorker.Worker.HandleRefundExecutionJob | apps/worker/src/refund-execution.ts:95-283 | for any conditions, any crash and any honest events of other actors Stripe never holds two refunds of a request nor one that was not written ahead; nothing is done exactly without a record; an ineligible payment closes the request, or is retried exactly for a retryable error; undisturbed and eligible the job crosses, sends once and records the reply, never fails to record a failure, and ends the request by the refund's status when no other refund was sighted |
| Scanner.ScanPages | apps/worker/src/reconciliation-scanner.ts:141-181 | a scan that ends has observed exactly the listing that Stripe paginated, in order; one that throws has observed a prefix of it; each of the five errors has its cause in the pages |
| Scanner.RunDerivesWindows | apps/worker/src/reconciliation-scanner.ts:127-140 | over every run each window starts one hour before the earlier of its end and the checkpoint it loaded, or the installation time when there was none |
| Scanner.CheckpointRow.Commit | apps/worker/src/db-store.ts:1553-1577 | the commit succeeds exactly when the checkpoint is still the one the scan loaded; then it is the window's end, not before the old one, with no window left open; otherwise the row is untouched |
| Scanner.CheckpointNeverMovesBack | apps/worker/src/db-store.ts:1553-1577 | over every run of racing scans with any clocks the checkpoint never moves back |
| Scanner.UnracedScanCommitsIff | apps/worker/src/db-store.ts:1553-1577 | a scan nobody races moves the checkpoint to its end if and only if its clock has not fallen behind it, and has observed its listing |
| Scanner.EveryCheckpointIsCovered | apps/worker/src/reconciliation-scanner.ts:127-198 | for any listing delay and any lead of the worker's clock that together fit into one hour, every refund created from installation to one hour before the checkpoint has been observed |
| Scanner.CoveredIffSlackFits | apps/worker/src/reconciliation-scanner.ts:13-13 | for a clock less than an hour ahead every run is covered if and only if delay and lead together fit into the one-hour overlap |
| Scanner.TooMuchSlackLosesRefunds | apps/worker/src/reconciliation-scanner.ts:127-198 | otherwise a run whose committed checkpoint passes a refund nobody observed |
| EdgeAdmission.RetryAfterIsLeast | apps/platform/src/server/edge-admission.ts:204-221 | the advertised delay is the least number of seconds after which the bucket admits |
| EdgeAdmission.AdmissionIsDecidedBy | apps/platform/src/server/edge-admission.ts:446-507 | admitted if and only if there is room, both buckets are ready and concurrency is below the limit; a refusal is 429 and names the first limit that failed |
| EdgeAdmission.RefusalCharges | apps/platform/src/server/edge-admission.ts:446-507 | a refusal takes no lease, no place and nothing from the class; a tracked source whose own bucket was ready pays for it |
| EdgeAdmission.AdmissionCharges | apps/platform/src/server/edge-admission.ts:499-507 | an admission is leased and charged once to both buckets |
| EdgeAdmission.CapacityRefusalAdvises | apps/platform/src/server/edge-admission.ts:449-466 | a newcomer to a full map is advised the least delay that covers the next sweep and the refused newcomers before it |
| EdgeAdmission.SweepForgetsExactlyIdle | apps/platform/src/server/edge-admission.ts:550-564 | a due sweep forgets exactly the sources without a lease, not admitted for five minutes, with a bucket run out |
| EdgeAdmission.AdmissionIsMetered | apps/platform/src/server/edge-admission.ts:204-221 | one conforming admission keeps the arrival time one interval ahead an admission, and every interval within the bound |
| EdgeAdmission.SweepKeepsMeters | apps/platform/src/server/edge-admission.ts:550-564 | eviction does not loosen the bound of the evicted source |
| EdgeAdmission.SweepKeepsAccounts | apps/platform/src/server/edge-admission.ts:550-564 | a leased source is never swept |
| EdgeAdmission.ReleaseKeepsAccounts | apps/platform/src/server/edge-admission.ts:508-521 | releasing an outstanding lease lowers both counters by exactly one |
| EdgeAdmission.EveryRunIsRateBounded | apps/platform/src/server/edge-admission.ts:440-506 | over every run, in every interval of the gate clock, a class and each source of it, across eviction, is admitted at most burst plus length over interval times |
| EdgeAdmission.EveryRunAccountsForLeases | apps/platform/src/server/edge-admission.ts:446-522 | over every run concurrency equals outstanding leases, equals the active leases of tracked sources, and is within policy; the map is within capacity |
| EdgeAdmission.EveryOutstandingLeaseIsTracked | apps/platform/src/server/edge-admission.ts:508-564 | after every run an outstanding lease's own source object is tracked and both clamps are out of reach |
| EdgeAdmission.EveryRunRemembersRecentSources | apps/platform/src/server/edge-admission.ts:550-564 | after every run a source admitted less than five minutes of gate clock ago is still tracked with its own object |
| EdgeAdmission.BurstIsAdmitted | apps/platform/src/server/edge-admission.ts:446-507 | the bound is attained: on a fresh gate one source is admitted at one instant as often as both bursts and the concurrency allow |
| EdgeGate.ClassLane.Sweep | apps/platform/src/server/edge-admission.ts:550-564 | the deleting loop removes exactly the idle sources, at most once an interval |
| EdgeGate.ClassLane.Admit | apps/platform/src/server/edge-admission.ts:446-507 | capacity, rates, concurrency and the updates in their order refine the specification |
| EdgeGate.ClassLane.Release | apps/platform/src/server/edge-admission.ts:508-521 | keeps all lease accounts, lowers concurrency by one exactly for an outstanding lease, and a second release changes nothing |
| EdgeGate.MemoryEdgeAdmissionGate.Now | apps/platform/src/server/edge-admission.ts:532-539 | the gate clock never runs back; an unusable clock leaves it alone |
| EdgeGate.MemoryEdgeAdmissionGate.Acquire | apps/platform/src/server/edge-admission.ts:416-522 | one admission request, and the class's rate bound after it |
| EdgeGate.MemoryEdgeAdmissionGate.Release | apps/platform/src/server/edge-admission.ts:508-521 | concurrency drops by one for an outstanding lease and not otherwise |
| MutationIntent.IntentReusesNonce | apps/stripe-app/src/api/mutation-intent.ts:14-44 | until complete or reset an intent starts with one nonce through any run |
| MutationIntent.ActiveIntentSurvivesReset | apps/stripe-app/src/api/mutation-intent.ts:40-44 | a reset cannot take the nonce of a mutation in flight |
| MutationIntent.EveryRunIsExclusive | apps/stripe-app/src/api/mutation-intent.ts:8-44 | over every run at most one mutation is in flight, each has a nonce, and no two intents share one when the factory repeats none |
| MutationIntent.MutationIntentRegistry.BeginIntent | apps/stripe-app/src/api/mutation-intent.ts:14-29 | starts only when nothing is in flight, reusing the stored nonce |
| MutationIntent.RetryOrRenew | apps/stripe-app/src/api/mutation-intent.ts:14-44 | a released intent begins again under its old nonce, a completed one or one reset while idle under a new nonce, and a reset in flight does not count |
| MutationIntent.MutationIntentRegistry.ReleaseIntent | apps/stripe-app/src/api/mutation-intent.ts:31-33 | the next begin of the released intent starts with the nonce it had |
| MutationIntent.MutationIntentRegistry.CompleteIntent | apps/stripe-app/src/api/mutation-intent.ts:35-38 | the next begin of the completed intent starts with a fresh nonce, and other intents keep theirs |
| MutationIntent.MutationIntentRegistry.ResetIntent | apps/stripe-app/src/api/mutation-intent.ts:40-44 | changes nothing for a mutation in flight; with nothing in flight the next begin starts with a fresh nonce |
| MutationReceipts.ReceiptIsFinal | apps/platform/src/server/pilot-prisma-repository.ts:382-429 | through every interleaving of later dispatches a receipt stays as first stored and no effect commits under its nonce |
| MutationReceipts.EveryAnswerAgrees | apps/platform/src/server/pilot-service.ts:297-303 | two dispatches under one nonce never give different responses below 500 |
| MutationReceipts.EveryRepeatGetsTheRecord | apps/platform/src/server/pilot-service.ts:297-303 | over every interleaving a dispatch that arrives after a receipt exists and is finished has answered with the response on record if actor, operation and hash agree, and with a 409 conflict otherwise; its first step finishes it |
| MutationReceipts.EveryRunCountsEffects | apps/platform/src/server/pilot-prisma-repository.ts:401-414 | exact number of committed effects of a nonce over every run |
| MutationReceipts.EveryRunIsAtMostOnce | apps/platform/src/server/pilot-prisma-repository.ts:382-483 | without a mutation returning 500 or more the effect of a nonce commits at most once |
| MutationReceipts.FinalIffReceipted | apps/platform/src/server/pilot-prisma-repository.ts:392-413 | no later run can commit the nonce again if and only if it has a receipt |
| MutationReceipts.CommitIsReceiptedIffBelow500 | apps/platform/src/server/pilot-prisma-repository.ts:402-413 | a committed mutation is receipted if and only if its status is below 500 |
| MutationReceipts.MutationRepository.Execute | apps/platform/src/server/pilot-prisma-repository.ts:382-429 | the mutation transaction with its uniqueness-race path; under an existing receipt it answers the stored response when actor, operation and hash agree and a 409 conflict otherwise |
| MutationReceipts.MutationRepository.StoreReceipt | apps/platform/src/server/pilot-prisma-repository.ts:431-483 | the error-receipt transaction; an existing receipt is answered in the same way |
| MutationReceipts.MutationRepository.DispatchMutation | apps/platform/src/server/pilot-service.ts:296-441 | a repeat with equal actor, operation and hash gives the stored response, any other a 409 conflict, and neither changes anything; an answer below 500 is the one on record |
| Money.ParseIsExact | apps/stripe-app/src/money.ts:57-97 | for every input: each refusal if and only if its cause, refusal for precision if and only if a nonzero digit lies beyond the exponent, and otherwise a canonical positive amount of exactly the typed value |
| Money.FormatThenParse | apps/stripe-app/src/money.ts:35-97 | every canonical positive amount survives formatting and parsing in every currency |
| Money.FormatIsExact | apps/stripe-app/src/money.ts:35-55 | a formatted amount has exactly the currency's decimals, no superfluous zero and the exact value |
| Money.SpacesDoNotMatter | apps/stripe-app/src/money.ts:57-66 | white space of any kind, anywhere, does not change what is parsed |
| Money.CommaIsPoint | apps/stripe-app/src/money.ts:57-66 | a decimal comma is parsed as a decimal point |
| Money.ExponentByCurrency | apps/stripe-app/src/money.ts:1-26 | exactly which currencies have no decimals and which have three |
| Money.CanonicalIsUnique | apps/stripe-app/src/money.ts:28-28 | a canonical amount is determined by its value, so the parsed string is the only right one |

## Left out

- HMAC, AES and SHA-256 are idealised: a token or proof equals the fields it
  signs, and only the worker's signing step adds to the signed set.
- The authorization snapshot hash and the identifier patterns of attestation
  payloads, because token equality over all fields subsumes them.
- Row locks, advisory locks, row-level security, serialization retries: replaced
  by atomic steps. SQL triggers only reject, so the model allows more runs than
  the database; the one trigger that writes, the safe-boundary stamp, is modelled,
  and the payment-protection trigger is checked where a request is created.
- TenantOutcomes.SignsIff: does not model a repeated attestation under a stored
  nonce, which returns the first row without signing, so every modelled signing is
  a first one; a rejection's justification is part of `Domain` only.
- Webhook receipts, audit events, installation provisioning and policy rows.
- The batching of expiry and recovery, and job scheduling: single steps may
  happen at any time instead.
- One tenant at a time: equality of tenant identifiers inside rows is taken for
  granted, and currencies are compared as already normalised strings.
- The order in which candidates are listed is a parameter of the step, so the
  theorems hold for every order; the request an alert overlaps with is not stored.
- `external_refund_alerts.reconciled_at` and acknowledgement: alerts stay open.
- The paging of the linked-refund refresh list: its step is modelled, the loop
  would repeat the argument of the refund listing.
- Header, address and allow-list parsing of the edge gate: its verdict is an
  input. Source objects are indices into a list, so that a lease and the map can
  share one; bucket times are unbounded integers.
- The purge of mutation receipts after one year; finality is up to then.
- `formatMinorAmount`, eligibility of payments, views, notifications,
  configuration, health and release tooling: easy members or plumbing.
- Scanner.EveryCheckpointIsCovered: a clock a whole hour or more ahead of Stripe's
  is not covered; a window that far in the future can end before its refunds exist.
- AbsenceTruth.RecordedAbsenceIsTrue: restricted to refusals of the newest
  attempt, because it is false without that, as the counterexample shows; a
  listing is taken to be answered after the millisecond in which the end of its
  window was read, and to hold every refund that then exists in its seconds.
- StripeEffects.AtMostOneRefundPerRequest: assumes that Stripe keeps idempotency
  keys for the life of a request.
- No step is ever forced to happen: the outcome theorems say what a step achieves
  when it is taken, not that it is taken.
