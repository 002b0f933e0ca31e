/** What the operations of a tenant achieve: an honest approval leads all the way
    to an executed refund, and a committed scan settles the requests it covers. */
module TenantOutcomes {
  import opened Prelude
  import opened Domain
  import opened Observation
  import opened Execution
  import opened Attestation
  import opened RefundRow
  import opened RowInvariant
  import opened RowTheorems
  import opened RowOutcomes
  import opened Tenant
  import opened TenantTheorems
  import opened StripeEffects

  // ------------------------------------------------------ creating a request

  /** Exactly when a request is created: an active sandbox installation of an
      active tenant, a fresh identifier, one required approval, somebody else to
      give it, a payment nobody else holds and no external refund touched. */
  lemma CreationAcceptedIff(db: Db, s: Snapshot)
    ensures CreateRefundRequest(db, s).Some? <==>
              && db.tenantActive && !db.liveEnabled && s.environment != Live
              && s.installationId in db.installations && db.installations[s.installationId].active
              && db.installations[s.installationId].environment == s.environment
              && s.requestId !in db.rows && s.requiredApprovals == 1
              && (exists u | u in db.users :: db.users[u].approverEnabled && u != s.requesterUserId)
              && (forall id | id in db.rows :: db.rows[id].snap.environment == s.environment && db.rows[id].snap.paymentKey == s.paymentKey ==>
                                                 db.rows[id].guardReleasedAt.Some?)
              && (forall k | k in db.alerts :: !(k.0 == s.installationId && db.alerts[k].environment == s.environment
                                                 && db.alerts[k].paymentKey == s.paymentKey))
    ensures CreateRefundRequest(db, s).Some? ==>
              var db' := CreateRefundRequest(db, s).value;
              && db' == db.(rows := db.rows[s.requestId := db'.rows[s.requestId]])
              && db'.rows[s.requestId].snap == s && db'.rows[s.requestId].status == PendingApproval
              && db'.rows[s.requestId].effect == NotStarted && db'.rows[s.requestId].version == 0
              && db'.rows[s.requestId].guardReleasedAt.None? && db'.rows[s.requestId].execution.None?
  {
  }

  // ------------------------------------------------- an honest approval

  /** People are stored under their own identifiers. */
  predicate WellKeyed(db: Db) { forall u | u in db.users :: db.users[u].id == u }

  /** What the worker signs, field by field: the request as it stands and the two
      people by their own identifiers, for at most five minutes. */
  lemma SignedPayloadIsTheRequest(db: Db, id: string, approver: string, aid: string, input: AttestInput)
    requires WellKeyed(db) && PersistApprovalAttestation(db, id, approver, aid, input).Some?
    ensures id in db.rows && approver in db.users && db.rows[id].snap.requesterUserId in db.users
    ensures var (db', row) := PersistApprovalAttestation(db, id, approver, aid, input).value;
            var s, p := db.rows[id].snap, row.token;
            && db' == db.(signed := db.signed + {p})
            && p.requestId == s.requestId && p.tenantId == s.tenantId && p.installationId == s.installationId
            && p.environment == s.environment && p.stripeAccountId == Account(db, s)
            && p.paymentKey == s.paymentKey && p.paymentIntentId == s.paymentIntentId && Some(p.chargeId) == s.chargeId
            && p.amountMinor == s.amountMinor && p.currency == s.currency && p.reason == s.reason
            && p.requestVersion == db.rows[id].version && p.policyVersion == s.policyVersion
            && p.requiredApprovals == s.requiredApprovals == 1
            && p.approverUserId == approver && p.approverStripeUserId == db.users[approver].stripeUserId
            && p.requesterUserId == s.requesterUserId && p.requesterStripeUserId == db.users[s.requesterUserId].stripeUserId
            && p.requestNonce == input.nonce && p.envelopeHash == input.envelopeHash
            && p.verifiedAt == input.verifiedAt && p.expiresAt == s.expiresAt
            && p.consumeBefore == Min(input.verifiedAt + 300_000, s.expiresAt)
            && row.id == aid && row.approverUserId == approver && row.requestVersion == p.requestVersion
            && row.verifiedAt == p.verifiedAt && row.consumeBefore == p.consumeBefore
  {
  }

  /** Exactly when the worker signs: the approver's view of the request is current
      and the two people are different and known by both identifiers. */
  lemma SignsIff(db: Db, id: string, approver: string, aid: string, input: AttestInput)
    requires WellKeyed(db) && id in db.rows && approver in db.users && db.rows[id].snap.requesterUserId in db.users
    requires db.rows[id].snap.installationId in db.installations
    ensures var r, s := db.rows[id], db.rows[id].snap;
            var i := db.installations[s.installationId];
            var requester := db.users[s.requesterUserId];
            PersistApprovalAttestation(db, id, approver, aid, input).Some? <==>
              && db.tenantActive && !db.liveEnabled && i.active && i.environment == s.environment == input.environment != Live
              && i.stripeAccountId == input.stripeAccountId
              && r.status == PendingApproval && r.effect == NotStarted && r.guardReleasedAt.None? && 0 <= r.version == input.expectedVersion
              && s.chargeId.Some? && 0 < s.amountMinor == input.amountMinor && s.currency == input.currency && s.reason == input.reason
              && s.requiredApprovals == 1 && s.policyVersion >= 1
              && s.paymentKey == (if s.paymentIntentId.Some? then s.paymentIntentId.value else s.chargeId.value)
              && input.resourceId == s.paymentKey
              && input.resourceType == (if s.paymentIntentId.Some? then PaymentIntentResource else ChargeResource)
              && approver != s.requesterUserId && db.users[approver].approverEnabled
              && db.users[approver].stripeUserId == input.approverStripeUserId != input.requesterStripeUserId == requester.stripeUserId
              && s.createdAt <= input.verifiedAt < s.expiresAt
  {
  }

  /** The decision on an attested pending request. */
  lemma AttestedDecisionSucceeds(db: Db, id: string, approver: string, aid: string, input: AttestInput, t: Time)
    requires WellKeyed(db) && PersistApprovalAttestation(db, id, approver, aid, input).Some?
    requires var row := PersistApprovalAttestation(db, id, approver, aid, input).value.1;
             row.verifiedAt <= t < row.consumeBefore
    ensures var (db1, row) := PersistApprovalAttestation(db, id, approver, aid, input).value;
            var o := DecideRefundRequest(db1, id, approver, Approve, Some(row), t);
            && o.Some? && id in db.rows
            && o.value == SetRow(db1, id, db.rows[id].(
                 status := Approved, version := db.rows[id].version + 1,
                 approval := Some(Approval(Approve, approver, t, Some(aid), Some(row)))))
  {
    SignedPayloadIsTheRequest(db, id, approver, aid, input);
  }

  /** The request as approved under this attestation, one step further on. */
  predicate ApprovedUnder(db: Db, id: string, approver: string, row: AttestationRow, t: Time) {
    && id in db.rows && approver in db.users && db.rows[id].snap.requesterUserId in db.users
    && WellKeyed(db) && HasActivePilotExecutionContext(db, db.rows[id].snap)
    && db.rows[id].approval == Some(Approval(Approve, approver, t, Some(row.id), Some(row)))
    && row.verifiedAt <= t < row.consumeBefore && MatchesRequest(db, db.rows[id].snap, approver, row)
    && db.rows[id].execution.None? && db.rows[id].effect == NotStarted && db.rows[id].guardReleasedAt.None?
  }

  /** The stored attestation carries the payload of this request and these people. */
  predicate MatchesRequest(db: Db, s: Snapshot, approver: string, row: AttestationRow)
    requires approver in db.users && s.requesterUserId in db.users
  {
    && s.installationId in db.installations && s.chargeId.Some? && s.requiredApprovals == 1 && row.requestVersion >= 0
    && db.users[approver].approverEnabled && approver != s.requesterUserId
    && db.users[approver].stripeUserId != db.users[s.requesterUserId].stripeUserId
    && row == AttestationRow(row.id, s.tenantId, s.installationId, s.requestId, approver, row.requestNonce, Account(db, s),
                             s.environment, ResourceTypeOf(s), ResourceIdOf(s), row.requestVersion, row.envelopeHash,
                             row.verifiedAt, row.consumeBefore, row.token)
    && row.token == Payload(row.envelopeHash, row.requestNonce, s.tenantId, s.installationId, Account(db, s), s.environment,
                            ResourceTypeOf(s), ResourceIdOf(s), s.requestId, row.requestVersion, approver, s.requesterUserId,
                            db.users[approver].stripeUserId, db.users[s.requesterUserId].stripeUserId,
                            s.paymentKey, s.paymentIntentId, s.chargeId.value, s.amountMinor, s.currency, s.reason,
                            s.policyVersion, s.requiredApprovals, s.expiresAt, row.verifiedAt, row.consumeBefore)
    && Consistent(row.token)
  }

  lemma AttestationMatches(db: Db, id: string, approver: string, aid: string, input: AttestInput)
    requires WellKeyed(db) && PersistApprovalAttestation(db, id, approver, aid, input).Some?
    ensures id in db.rows && approver in db.users && db.rows[id].snap.requesterUserId in db.users
    ensures MatchesRequest(db, db.rows[id].snap, approver, PersistApprovalAttestation(db, id, approver, aid, input).value.1)
    ensures HasActivePilotExecutionContext(db, db.rows[id].snap)
    ensures db.rows[id].effect == NotStarted && db.rows[id].guardReleasedAt.None?
    ensures PersistApprovalAttestation(db, id, approver, aid, input).value.1.requestVersion == db.rows[id].version
  {
  }

  /** The gate accepts the approval right after it was given, and after the claim. */
  lemma GateAccepts(db: Db, id: string, approver: string, row: AttestationRow, t: Time)
    requires ApprovedUnder(db, id, approver, row, t)
    requires (db.rows[id].status == Approved && db.rows[id].version == row.requestVersion + 1)
             || (db.rows[id].status == Executing && db.rows[id].version == row.requestVersion + 2)
    ensures ApprovalAttestationIsValid(db, db.rows[id])
  {
  }

  /** Loading claims a validly approved request and hands its record out. */
  lemma LoadClaimsApproved(db: Db, id: string, approver: string, row: AttestationRow, t: Time, key: string, now: Time)
    requires ApprovedUnder(db, id, approver, row, t) && db.rows[id].status == Approved && db.rows[id].version == row.requestVersion + 1
    ensures var db' := LoadRefundExecution(db, id, key, now);
            && HandedOut(db', id, key) && ApprovedUnder(db', id, approver, row, t)
            && db' == SetRow(db, id, db.rows[id].(status := Executing, executionStartedAt := Some(now), version := row.requestVersion + 2))
  {
    GateAccepts(db, id, approver, row, t);
    var claimed := db.rows[id].(status := Executing, executionStartedAt := Some(now), version := row.requestVersion + 2);
    var db' := SetRow(db, id, claimed);
    GateAccepts(db', id, approver, row, t);
    SameItem(db, db', id);
  }

  /** The gate reads people and installations, not other rows. */
  lemma SameItem(db: Db, db': Db, id: string)
    requires id in db.rows && id in db'.rows && db' == db.(rows := db'.rows)
    ensures forall r :: ApprovalAttestationIsValid(db, r) == ApprovalAttestationIsValid(db', r)
    ensures forall s :: HasActivePilotExecutionContext(db, s) == HasActivePilotExecutionContext(db', s)
  {
  }

  lemma BoundaryExecutesFirst(db: Db, id: string, approver: string, row: AttestationRow, t: Time, key: string, now: Time)
    requires ApprovedUnder(db, id, approver, row, t) && db.rows[id].status == Executing && db.rows[id].version == row.requestVersion + 2
    ensures var (db', decision) := PersistEffectBoundary(db, id, key, now);
            && decision == Execute(0) && db' == SetRow(db, id, db'.rows[id])
            && AchievesCrossing(db.rows[id], Account(db, db.rows[id].snap), key, db'.rows[id])
            && db'.rows[id].effect == Possible && AttemptsOf(db'.rows[id]) == [Attempt(1, Started)]
            && db'.rows[id].execution.value.params == ParamsOf(db.rows[id].snap, Account(db, db.rows[id].snap))
  {
    GateAccepts(db, id, approver, row, t);
    assert [] + [Attempt(MaxNumber([]) + 1, Started)] == [Attempt(1, Started)];
  }

  /** Completeness of the approval: signing, deciding inside the window, loading and
      crossing, one after the other with people and installation unchanged, lead to
      the first attempt. */
  lemma HonestApprovalExecutes(
    db: Db, id: string, approver: string, aid: string, input: AttestInput, t: Time, key: string, loadAt: Time, crossAt: Time)
    requires WellKeyed(db) && PersistApprovalAttestation(db, id, approver, aid, input).Some? && Sound(db.rows[id])
    requires var row := PersistApprovalAttestation(db, id, approver, aid, input).value.1;
             row.verifiedAt <= t < row.consumeBefore
    ensures var (db1, row) := PersistApprovalAttestation(db, id, approver, aid, input).value;
            var decided := DecideRefundRequest(db1, id, approver, Approve, Some(row), t);
            && decided.Some?
            && var loaded := LoadRefundExecution(decided.value, id, key, loadAt);
               && HandedOut(loaded, id, key)
               && PersistEffectBoundary(loaded, id, key, crossAt).1 == Execute(0)
  {
    var (db1, row) := PersistApprovalAttestation(db, id, approver, aid, input).value;
    AttestedDecisionSucceeds(db, id, approver, aid, input, t);
    AttestationMatches(db, id, approver, aid, input);
    SignedPayloadIsTheRequest(db, id, approver, aid, input);
    var decided := DecideRefundRequest(db1, id, approver, Approve, Some(row), t).value;
    LoadClaimsApproved(decided, id, approver, row, t, key, loadAt);
    var loaded := LoadRefundExecution(decided, id, key, loadAt);
    BoundaryExecutesFirst(loaded, id, approver, row, t, key, crossAt);
  }

  // ------------------------------------------------------ decisions

  /** Who may decide what, exactly: an enabled approver other than the requester,
      on a pending request; a rejection at any time, an approval only before expiry
      and with an attestation of the version decided on. */
  lemma DecisionAcceptedIff(db: Db, id: string, actor: string, kind: DecisionKind, at: Option<AttestationRow>, now: Time)
    requires RowsSound(db)
    ensures DecideRefundRequest(db, id, actor, kind, at, now).Some? <==>
              && id in db.rows && actor in db.users && db.users[actor].approverEnabled
              && db.rows[id].snap.requesterUserId != actor && db.rows[id].status == PendingApproval
              && (kind == Approve ==>
                    at.Some? && at.value.requestVersion == db.rows[id].version && now < db.rows[id].snap.expiresAt)
    ensures DecideRefundRequest(db, id, actor, kind, at, now).Some? ==>
              var db' := DecideRefundRequest(db, id, actor, kind, at, now).value;
              && db' == SetRow(db, id, db'.rows[id])
              && (kind == Reject ==> ClosesPending(db.rows[id], true, Rejected, now, db'.rows[id]))
              && (kind == Approve ==>
                    && db'.rows[id].status == Approved && db'.rows[id].approval.Some?
                    && db'.rows[id].approval.value.approverUserId == actor && db'.rows[id].approval.value.attestation == at)
  {
  }

  /** Only the requester cancels, and only a pending request. */
  lemma CancellationAcceptedIff(db: Db, id: string, actor: string, now: Time)
    requires RowsSound(db)
    ensures CancelRefundRequest(db, id, actor, now).Some? <==>
              id in db.rows && db.rows[id].snap.requesterUserId == actor && db.rows[id].status == PendingApproval
    ensures CancelRefundRequest(db, id, actor, now).Some? ==>
              var db' := CancelRefundRequest(db, id, actor, now).value;
              db' == SetRow(db, id, db'.rows[id]) && ClosesPending(db.rows[id], true, Canceled, now, db'.rows[id])
  {
  }

  // ------------------------------------------------------ the boundary

  /** What the boundary answers, in every state of a sound row, and that it moves
      the row only to let it through or to divert an effect left possible. */
  lemma BoundaryAnswers(db: Db, id: string, key: string, now: Time)
    requires id in db.rows && Sound(db.rows[id])
    ensures var r := db.rows[id];
            var (db', decision) := PersistEffectBoundary(db, id, key, now);
            var known := HasActivePilotExecutionContext(db, r.snap);
            && (r.status == ReconciliationRequired ==> decision == NeedsReconciliation && db' == db)
            && (r.status != Executing && r.status != ReconciliationRequired ==> decision == NotExecutable && db' == db)
            && (r.status == Executing && !known ==> decision == NotExecutable && db' == db)
            && (r.status == Executing && known && r.effect == Possible ==>
                  && decision == NeedsReconciliation
                  && db' == SetRow(db, id, db'.rows[id]) && Achieves(r, TxDivert(now), db'.rows[id]))
            && (r.status == Executing && known && r.effect == Identified ==> decision == NotExecutable && db' == db)
  {
    if LinkOf(db.rows[id]).Some? {
      LinkedIsNeverValid(db, db.rows[id]);
    }
  }

  /** When the boundary tells the worker to execute, the attempt it names is the new
      one, numbered after all earlier ones. */
  lemma ExecuteStartsNewAttempt(db: Db, id: string, key: string, now: Time)
    requires id in db.rows && Sound(db.rows[id]) && PersistEffectBoundary(db, id, key, now).1.Execute?
    ensures var (db', decision) := PersistEffectBoundary(db, id, key, now);
            && decision.attempt == |AttemptsOf(db.rows[id])| && db' == SetRow(db, id, db'.rows[id])
            && AttemptsOf(db'.rows[id]) == AttemptsOf(db.rows[id]) + [Attempt(decision.attempt + 1, Started)]
            && db'.rows[id].effect == Possible && db'.rows[id].version == db.rows[id].version + 1
  {
    MaxOfNumbered(AttemptsOf(db.rows[id]));
  }

  /** An observation of the linked refund of a sound row is never refused. */
  lemma LinkedIdentifySucceeds(r: Row, input: Identification, now: Time)
    requires Sound(r) && LinkOf(r) == Some(input.refundId)
    ensures MarkRefundIdentified(r, input, now).Some?
  {
  }

  lemma RefreshSucceedsIff(r: Row, refundId: string, environment: Environment, t: RefundTuple, status: Option<RefundStatus>, now: Time)
    requires Sound(r)
    ensures Refresh(r, refundId, environment, t, status, now).Some? <==> LinkOf(r) == Some(refundId) && TupleMatches(r.snap, environment, t)
  {
    if LinkOf(r) == Some(refundId) {
      LinkedIdentifySucceeds(r, Identification(refundId, status, status.Some? && !Unsettled(status), None), now);
    }
  }

  /** Exactly which refreshes of a linked refund are accepted. */
  lemma RefreshAcceptedIff(
    db: Db, id: string, inst: string, refundId: string, environment: Environment, t: RefundTuple, status: Option<RefundStatus>, now: Time)
    requires RowsSound(db)
    ensures ObserveLinkedRefund(db, id, inst, refundId, environment, t, status, now).Some? <==>
              && id in db.rows && HasActivePilotExecutionContext(db, db.rows[id].snap)
              && db.rows[id].snap.installationId == inst && LinkOf(db.rows[id]) == Some(refundId)
              && TupleMatches(db.rows[id].snap, environment, t)
  {
    if id in db.rows {
      RefreshSucceedsIff(db.rows[id], refundId, environment, t, status, now);
    }
  }

  /** And an accepted one is the row's refresh, whose outcome `RefreshConcludes` states. */
  lemma AcceptedRefreshApplies(
    db: Db, id: string, inst: string, refundId: string, environment: Environment, t: RefundTuple, status: Option<RefundStatus>, now: Time)
    requires ObserveLinkedRefund(db, id, inst, refundId, environment, t, status, now).Some?
    ensures var db' := ObserveLinkedRefund(db, id, inst, refundId, environment, t, status, now).value;
            id in db.rows && db' == SetRow(db, id, Apply(db.rows[id], TxRefresh(refundId, environment, t, status, now)))
  {
  }

  /** Exactly which approvals the gate accepts, against the rows as they are now. */
  lemma ApprovalValidIff(item: Item, d: Approval)
    requires d.attestation.Some? && item.snap.chargeId.Some?
    ensures var s, a := item.snap, d.attestation.value;
            var p := a.token;
            ApprovalIsValid(item, Some(d)) <==>
              && d.kind == Approve && d.attestationId == Some(a.id)
              && a.requestId == s.requestId && a.tenantId == s.tenantId && a.installationId == s.installationId
              && a.approverUserId == d.approverUserId && a.stripeAccountId == item.stripeAccountId
              && a.environment == s.environment && s.environment != Live && s.requiredApprovals == 1
              && item.approver.approverEnabled && item.approver.id != item.requester.id
              && item.approver.stripeUserId != item.requester.stripeUserId
              && VersionIsCompatible(item.status, item.effect, item.version, item.execution, a.requestVersion)
              && a.verifiedAt <= d.decidedAt < a.consumeBefore
              && a.resourceType == (if s.paymentIntentId.Some? then PaymentIntentResource else ChargeResource)
              && a.resourceId == (if s.paymentIntentId.Some? then s.paymentIntentId.value else s.chargeId.value)
              && Consistent(p) && TokenIs(p, item, d)
  {
  }

  /** The token signs these rows, this decision's people and this window. */
  predicate TokenIs(p: Payload, item: Item, d: Approval)
    requires d.attestation.Some?
  {
    var s, a := item.snap, d.attestation.value;
    && p.envelopeHash == a.envelopeHash && p.requestNonce == a.requestNonce && p.tenantId == s.tenantId
    && p.installationId == s.installationId && p.stripeAccountId == item.stripeAccountId && p.environment == s.environment
    && p.resourceType == a.resourceType && p.resourceId == a.resourceId && p.requestId == s.requestId
    && p.requestVersion == a.requestVersion && p.approverUserId == d.approverUserId && p.requesterUserId == s.requesterUserId
    && p.approverStripeUserId == item.approver.stripeUserId && p.requesterStripeUserId == item.requester.stripeUserId
    && p.paymentKey == s.paymentKey && p.paymentIntentId == s.paymentIntentId && Some(p.chargeId) == s.chargeId
    && p.amountMinor == s.amountMinor && p.currency == s.currency && p.reason == s.reason
    && p.policyVersion == s.policyVersion && p.requiredApprovals == s.requiredApprovals
    && p.expiresAt == s.expiresAt && p.verifiedAt == a.verifiedAt && p.consumeBefore == a.consumeBefore
  }

  /** The gate never accepts an approval of a request with a linked refund, so the
      boundary never gets to answer that the refund is already identified. */
  lemma LinkedIsNeverValid(db: Db, r: Row)
    requires LinkOf(r).Some?
    ensures !ApprovalAttestationIsValid(db, r)
  {
  }

  lemma AlreadyIdentifiedIsNeverAnswered(db: Db, id: string, key: string, now: Time)
    ensures !PersistEffectBoundary(db, id, key, now).1.AlreadyIdentified?
  {
    if id in db.rows && LinkOf(db.rows[id]).Some? {
      LinkedIsNeverValid(db, db.rows[id]);
    }
  }

  /** A request that cannot be retried safely, because its recorded key is not the
      one asked for or its execution is missing, is diverted and not executed. */
  lemma UnsafeRetryIsDiverted(db: Db, id: string, key: string, now: Time)
    requires id in db.rows && Sound(db.rows[id]) && db.rows[id].status == Executing && GateOpen(db, db.rows[id])
    requires db.rows[id].execution.Some? && db.rows[id].execution.value.key != key
    ensures var (db', decision) := PersistEffectBoundary(db, id, key, now);
            && decision == NeedsReconciliation && db' == SetRow(db, id, db'.rows[id])
            && Achieves(db.rows[id], TxDivert(now), db'.rows[id])
    ensures db.rows[id].snap.chargeId.Some? && db.rows[id].effect != Identified ==>
              var db' := LoadRefundExecution(db, id, key, now);
              !HandedOut(db', id, key) && db' == SetRow(db, id, db'.rows[id]) && Achieves(db.rows[id], TxDivert(now), db'.rows[id])
  {
    if LinkOf(db.rows[id]).Some? {
      LinkedIsNeverValid(db, db.rows[id]);
    }
  }

  /** Loading never leaves an orphaned possible effect executing. */
  lemma LoadDivertsOrphans(db: Db, id: string, key: string, now: Time)
    requires id in db.rows && Sound(db.rows[id]) && HasActivePilotExecutionContext(db, db.rows[id].snap)
    requires db.rows[id].status == Executing && db.rows[id].effect == Possible && db.rows[id].snap.chargeId.Some?
    ensures var db' := LoadRefundExecution(db, id, key, now);
            && !HandedOut(db', id, key) && db' == SetRow(db, id, db'.rows[id])
            && Achieves(db.rows[id], TxDivert(now), db'.rows[id])
  {
  }

  lemma RecoveryDivertsOrphans(db: Db, id: string, now: Time)
    requires id in db.rows && Sound(db.rows[id])
    ensures var r, db' := db.rows[id], RecoverOrphan(db, id, now);
            if HasActivePilotExecutionContext(db, r.snap) && r.status == Executing && r.effect == Possible
            then db' == SetRow(db, id, db'.rows[id]) && Achieves(r, TxDivert(now), db'.rows[id])
            else db' == db
  {
  }

  // ------------------------------------------------------ external refunds

  /** Exactly when an external refund is recorded: it lies in the past, belongs to
      a known sandbox installation and does not contradict an earlier record; then
      it is on record and every open request of its payment is settled. */
  lemma ExternalRefundRecordedIff(db: Db, inst: string, refundId: string, a: Alert, now: Time)
    ensures ObserveExternalRefund(db, inst, refundId, a, now).Some? <==>
              && a.createdAt <= now && inst in db.installations && a.environment == db.installations[inst].environment != Live
              && ((inst, refundId) in db.alerts ==> db.alerts[(inst, refundId)] == a)
    ensures ObserveExternalRefund(db, inst, refundId, a, now).Some? ==>
              var db' := ObserveExternalRefund(db, inst, refundId, a, now).value;
              && db'.alerts == db.alerts[(inst, refundId) := a] && db'.rows.Keys == db.rows.Keys
              && forall id | id in db.rows ::
                   if db.rows[id].snap.installationId == inst && db.rows[id].snap.environment == a.environment
                      && db.rows[id].snap.paymentKey == a.paymentKey
                   then db'.rows[id] == Apply(db.rows[id], TxSettle(now)) else db'.rows[id] == db.rows[id]
  {
  }

  /** Each replay of a listing is on record afterwards as a proof replay. */
  lemma {:induction false} ReplaysAreRecorded(
    db: Db, inst: string, environment: Environment, candidates: map<string, Candidate>, listing: seq<string>, now: Time, i: nat)
    requires RaiseReplays(db, inst, environment, candidates, listing, now).Some? && i < |listing|
    ensures var db' := RaiseReplays(db, inst, environment, candidates, listing, now).value;
            && listing[i] in candidates && (inst, listing[i]) in db'.alerts
            && var a := db'.alerts[(inst, listing[i])];
               && a.classification == ProofReplay && a.environment == environment
               && a.paymentKey == candidates[listing[i]].tuple.paymentKey && a.amountMinor == candidates[listing[i]].tuple.amountMinor
               && a.currency == candidates[listing[i]].tuple.currency && a.createdAt == candidates[listing[i]].tuple.createdAt
    decreases |listing|
  {
    var a := ReplayAlert(environment, candidates[listing[0]]);
    var next := ObserveExternalRefund(db, inst, listing[0], a, now).value;
    if i > 0 {
      ReplaysAreRecorded(next, inst, environment, candidates, listing[1..], now, i - 1);
    } else {
      ReplaysKeepAlerts(next, inst, environment, candidates, listing[1..], now, (inst, listing[0]));
    }
  }

  lemma {:induction false} ReplaysKeepAlerts(
    db: Db, inst: string, environment: Environment, candidates: map<string, Candidate>, listing: seq<string>, now: Time,
    k: (string, string))
    requires RaiseReplays(db, inst, environment, candidates, listing, now).Some? && k in db.alerts
    ensures var db' := RaiseReplays(db, inst, environment, candidates, listing, now).value;
            k in db'.alerts && db'.alerts[k] == db.alerts[k]
    decreases |listing|
  {
    if listing != [] {
      var next := ObserveExternalRefund(db, inst, listing[0], ReplayAlert(environment, candidates[listing[0]]), now).value;
      ReplaysKeepAlerts(next, inst, environment, candidates, listing[1..], now, k);
    }
  }

  /** When an answer is recorded, every other candidate of the request is on record
      as a proof replay. */
  lemma AnswerExposesReplays(
    db: Db, id: string, i: nat, key: string, refund: string, status: Option<RefundStatus>, ok: bool, others: seq<string>, now: Time,
    other: string)
    requires RecordIdentifiedRefund(db, id, i, key, refund, status, ok, others, now).Some?
    requires id in db.rows && other in db.rows[id].candidates && other != refund
    ensures var db' := RecordIdentifiedRefund(db, id, i, key, refund, status, ok, others, now).value;
            var k := (db.rows[id].snap.installationId, other);
            k in db'.alerts && db'.alerts[k].classification == ProofReplay
  {
    AnswerListsOthers(db, id, i, key, refund, status, ok, others, now, other);
    AnswerShape(db, id, i, key, refund, status, ok, others, now);
    var r' := RecordIdentified(db.rows[id], i, refund, if ok then status else None, now).value;
    var k :| 0 <= k < |others| && others[k] == other;
    ReplaysAreRecorded(SetRow(db, id, r'), r'.snap.installationId, r'.snap.environment, r'.candidates, others, now, k);
  }

  lemma AnswerListsOthers(
    db: Db, id: string, i: nat, key: string, refund: string, status: Option<RefundStatus>, ok: bool, others: seq<string>, now: Time,
    other: string)
    requires RecordIdentifiedRefund(db, id, i, key, refund, status, ok, others, now).Some?
    requires id in db.rows && other in db.rows[id].candidates && other != refund
    ensures other in others
  {
    var input := Identification(refund, if ok then status else None, false, None);
    IdentifyKeepsCandidates(db.rows[id], input, now);
    LinkedKeys(MarkRefundIdentified(db.rows[id], input, now).value, refund);
  }

  lemma LinkedKeys(r: Row, refund: string)
    ensures LinkCandidateIfAny(r, refund, ExactLinked).candidates.Keys == r.candidates.Keys
  {
  }

  /** A sighting that names no known request is on record afterwards: as external
      without a request identifier, as tampered with an unknown one. */
  lemma UnknownSightingIsRecorded(db: Db, inst: string, o: Sighting, others: seq<string>, now: Time)
    requires ObserveRefund(db, inst, o, others, now).Some?
    requires o.metadataRequestId.None? || o.metadataRequestId.value !in db.rows
    ensures var db' := ObserveRefund(db, inst, o, others, now).value;
            && (inst, o.refundId) in db'.alerts
            && var a := db'.alerts[(inst, o.refundId)];
               && a.classification == (if o.metadataRequestId.None? then External else Tampered)
               && a.paymentKey == o.tuple.paymentKey && a.amountMinor == o.tuple.amountMinor && a.currency == o.tuple.currency
               && a.environment == o.environment && a.createdAt == o.tuple.createdAt
  {
  }

  /** A sighting that names a request is on record as an alert exactly when its
      observation asks for one, under the class it asks for. */
  lemma NamedSightingIsRecorded(db: Db, inst: string, o: Sighting, others: seq<string>, now: Time)
    requires ObserveRefund(db, inst, o, others, now).Some?
    requires o.metadataRequestId.Some? && o.metadataRequestId.value in db.rows && inst in db.installations
    ensures var id := o.metadataRequestId.value;
            var out := Observe(db.rows[id], db.installations[inst].stripeAccountId, o, now);
            && out.Some?
            && (out.value.alert.Some? ==>
                  var db' := ObserveRefund(db, inst, o, others, now).value;
                  (inst, o.refundId) in db'.alerts && db'.alerts[(inst, o.refundId)].classification == out.value.alert.value)
  {
  }

  // ------------------------------------------------------ deauthorization

  /** Lifecycle order, exactly: a deauthorization applies unless a newer event, or
      another deauthorization of the same second, was applied before. */
  lemma DeauthorizationAppliesIff(db: Db, inst: string, eventId: string, createdAt: Time)
    ensures ApplyWebhookDeauthorization(db, inst, eventId, createdAt).Some? <==>
              && inst in db.installations && db.installations[inst].environment != Live
              && (db.installations[inst].lastLifecycle.Some? ==>
                    var last := db.installations[inst].lastLifecycle.value;
                    last.createdAt < createdAt
                    || (last.createdAt == createdAt && !(last.kind == Deauthorized && last.eventId != eventId)))
    ensures ApplyWebhookDeauthorization(db, inst, eventId, createdAt).Some? ==>
              var db' := ApplyWebhookDeauthorization(db, inst, eventId, createdAt).value;
              && !db'.tenantActive && !db'.installations[inst].active
              && db'.installations[inst].lastLifecycle == Some(Lifecycle(eventId, Deauthorized, createdAt))
              && db'.rows.Keys == db.rows.Keys
              && forall id | id in db.rows :: db'.rows[id] == Apply(db.rows[id], TxSettle(createdAt))
  {
  }

  // ------------------------------------------------------ the worker's record

  /** A recorded answer leaves the request linked to the answered refund. */
  lemma RecordedAnswerLinks(
    db: Db, id: string, i: nat, key: string, refund: string, status: Option<RefundStatus>, ok: bool, others: seq<string>, now: Time)
    requires id in db.rows && Sound(db.rows[id]) && RecordIdentifiedRefund(db, id, i, key, refund, status, ok, others, now).Some?
    ensures var db' := RecordIdentifiedRefund(db, id, i, key, refund, status, ok, others, now).value;
            id in db'.rows && LinkOf(db'.rows[id]) == Some(refund)
  {
    AnswerShape(db, id, i, key, refund, status, ok, others, now);
    var st := if ok then status else None;
    var r' := RecordIdentified(db.rows[id], i, refund, st, now).value;
    RowAnswerLinks(db.rows[id], i, refund, st, now);
    ReplaysKeepLinks(SetRow(db, id, r'), r'.snap.installationId, r'.snap.environment, r'.candidates, others, now, id);
  }

  lemma RowAnswerLinks(r: Row, i: nat, refund: string, status: Option<RefundStatus>, now: Time)
    requires Sound(r) && RecordIdentified(r, i, refund, status, now).Some?
    ensures LinkOf(RecordIdentified(r, i, refund, status, now).value) == Some(refund)
  {
    IdentifyLinks(r, Identification(refund, status, false, None), now);
  }

  lemma {:induction false} ReplaysKeepLinks(
    db: Db, inst: string, environment: Environment, candidates: map<string, Candidate>, listing: seq<string>, now: Time, id: string)
    requires RaiseReplays(db, inst, environment, candidates, listing, now).Some? && id in db.rows
    ensures var db' := RaiseReplays(db, inst, environment, candidates, listing, now).value;
            id in db'.rows && LinkOf(db'.rows[id]) == LinkOf(db.rows[id])
    decreases |listing|
  {
    if listing != [] {
      var next := ObserveExternalRefund(db, inst, listing[0], ReplayAlert(environment, candidates[listing[0]]), now).value;
      ReplaysKeepLinks(next, inst, environment, candidates, listing[1..], now, id);
    }
  }

  /** A record that was handed out may cross, on a sound row. */
  lemma HandedOutMayCross(db: Db, id: string, key: string)
    requires HandedOut(db, id, key) && Sound(db.rows[id])
    ensures MayCross(db, db.rows[id])
  {
    if LinkOf(db.rows[id]).Some? {
      LinkedIsNeverValid(db, db.rows[id]);
    }
  }

  /** A handed-out request that fails preflight is closed as absent. */
  lemma HandedOutFailsTerminally(db: Db, id: string, key: string, now: Time)
    requires HandedOut(db, id, key) && Sound(db.rows[id])
    ensures RecordOutcome(db, id, TxTerminal(now)).Some?
    ensures Achieves(db.rows[id], TxTerminal(now), RecordOutcome(db, id, TxTerminal(now)).value.rows[id])
    ensures RecordOutcome(db, id, TxTerminal(now)).value.rows[id].status == FailedTerminal
  {
    HandedOutMayCross(db, id, key);
    WorkerTxAchieves(db.rows[id], TxTerminal(now));
  }

  /** An attempt of the request has crossed the boundary and awaits its outcome. */
  predicate Underway(db: Db, id: string, key: string, i: nat) {
    && id in db.rows
    && db.rows[id].status == Executing && db.rows[id].effect == Possible && LinkOf(db.rows[id]).None?
    && db.rows[id].execution.Some? && db.rows[id].execution.value.key == key
    && i < |AttemptsOf(db.rows[id])| && AttemptsOf(db.rows[id])[i].state == Started
  }

  lemma ExecuteCrosses(db: Db, id: string, key: string, now: Time)
    requires id in db.rows && PersistEffectBoundary(db, id, key, now).1.Execute?
    ensures var (db', decision) := PersistEffectBoundary(db, id, key, now);
            && db.rows[id].snap.installationId in db.installations
            && CrossBoundary(db.rows[id], db.installations[db.rows[id].snap.installationId].stripeAccountId, key) == Some(db'.rows[id])
            && decision.attempt == |AttemptsOf(db'.rows[id])| - 1
  {
  }

  lemma CrossedAwaits(r: Row, account: string, key: string)
    requires Sound(r) && CrossBoundary(r, account, key).Some? && r.status == Executing && LinkOf(r).None?
    ensures var r' := CrossBoundary(r, account, key).value;
            && r'.status == Executing && r'.effect == Possible && LinkOf(r').None?
            && r'.execution.Some? && r'.execution.value.key == key
            && AttemptsOf(r') == AttemptsOf(r) + [Attempt(|AttemptsOf(r)| + 1, Started)]
  {
    MaxOfNumbered(AttemptsOf(r));
  }

  lemma ExecuteIsUnderway(db: Db, id: string, key: string, now: Time)
    requires id in db.rows && Sound(db.rows[id]) && PersistEffectBoundary(db, id, key, now).1.Execute?
    ensures var (db', decision) := PersistEffectBoundary(db, id, key, now);
            Underway(db', id, key, decision.attempt)
  {
    ExecuteCrosses(db, id, key, now);
    CrossedAwaits(db.rows[id], db.installations[db.rows[id].snap.installationId].stripeAccountId, key);
  }

  /** The failure of an attempt under way is never refused. */
  lemma FailureIsRecorded(db: Db, id: string, key: string, i: nat, tx: RowTx)
    requires Underway(db, id, key, i) && Sound(db.rows[id])
    requires (tx.TxAmbiguous? || tx.TxTerminalAttempt? || tx.TxRetryable?) && tx.attempt == i
    ensures RecordOutcome(db, id, tx).Some?
    ensures RecordOutcome(db, id, tx).value.rows[id].status
            == if tx.TxAmbiguous? then ReconciliationRequired else if tx.TxRetryable? then Executing else FailedTerminal
  {
    WorkerTxAchieves(db.rows[id], tx);
  }

  /** The request's status once its refund's status is known. */
  function StatusAfter(status: Option<RefundStatus>): WorkflowStatus {
    match status
    case None => ReconciliationRequired
    case Some(RefundPending) | Some(RefundRequiresAction) => Executing
    case Some(RefundSucceeded) => Succeeded
    case Some(RefundFailed) | Some(RefundCanceled) => FailedTerminal
  }

  /** Nor is its answer, unless another refund was sighted for the request. */
  lemma AnswerIsRecorded(
    db: Db, id: string, i: nat, key: string, refund: string, status: Option<RefundStatus>, ok: bool, now: Time)
    requires Underway(db, id, key, i) && Sound(db.rows[id]) && IsRefundId(refund) && db.rows[id].candidates == map[]
    ensures RecordIdentifiedRefund(db, id, i, key, refund, status, ok, [], now).Some?
    ensures RecordIdentifiedRefund(db, id, i, key, refund, status, ok, [], now).value.rows[id].status
            == StatusAfter(if ok then status else None)
  {
    var st := if ok then status else None;
    AnswerConcludes(db.rows[id], i, refund, st, now);
    IdentifyKeepsCandidates(db.rows[id], Identification(refund, st, false, None), now);
  }
}
