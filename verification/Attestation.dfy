/** Approval attestations: what a signature covers and when a stored approval
    may be trusted. The keyring is idealised: a token is the signed payload. */
module Attestation {
  import opened Prelude
  import opened Domain
  import opened Execution

  /** The immutable financial snapshot of a refund request. */
  datatype Snapshot = Snapshot(
    tenantId: string, requestId: string, installationId: string, environment: Environment,
    paymentKey: string, paymentIntentId: Option<string>, chargeId: Option<string>,
    amountMinor: int, currency: string, reason: string, requesterUserId: string,
    policyVersion: int, requiredApprovals: int, createdAt: Time, expiresAt: Time)

  datatype ResourceType = PaymentIntentResource | ChargeResource

  datatype Payload = Payload(
    envelopeHash: string, requestNonce: string, tenantId: string, installationId: string, stripeAccountId: string,
    environment: Environment, resourceType: ResourceType, resourceId: string, requestId: string, requestVersion: int,
    approverUserId: string, requesterUserId: string, approverStripeUserId: string, requesterStripeUserId: string,
    paymentKey: string, paymentIntentId: Option<string>, chargeId: string,
    amountMinor: int, currency: string, reason: string, policyVersion: int, requiredApprovals: int,
    expiresAt: Time, verifiedAt: Time, consumeBefore: Time)

  /** The semantic checks of canonical serialisation; identifier formats aside. */
  predicate Consistent(p: Payload) {
    && p.requestVersion >= 0
    && p.approverUserId != p.requesterUserId
    && p.approverStripeUserId != p.requesterStripeUserId
    && p.environment != Live
    && p.paymentKey == (if p.paymentIntentId.Some? then p.paymentIntentId.value else p.chargeId)
    && (p.resourceType == PaymentIntentResource ==> p.paymentIntentId == Some(p.resourceId))
    && (p.resourceType == ChargeResource ==> p.resourceId == p.chargeId)
    && p.amountMinor > 0
    && p.policyVersion >= 1
    && p.requiredApprovals >= 1
    && p.verifiedAt < p.consumeBefore <= p.expiresAt
  }

  /** Signing refuses an inconsistent payload. */
  function Sign(p: Payload): Option<Payload> { if Consistent(p) then Some(p) else None }

  predicate Verify(p: Payload, token: Payload) { Consistent(p) && token == p }

  datatype AttestationRow = AttestationRow(
    id: string, tenantId: string, installationId: string, requestId: string, approverUserId: string,
    requestNonce: string, stripeAccountId: string, environment: Environment,
    resourceType: ResourceType, resourceId: string, requestVersion: int, envelopeHash: string,
    verifiedAt: Time, consumeBefore: Time, token: Payload)

  /** A stored decision with the attestation it consumed. */
  datatype Approval = Approval(
    kind: DecisionKind, approverUserId: string, decidedAt: Time,
    attestationId: Option<string>, attestation: Option<AttestationRow>)

  datatype User = User(id: string, stripeUserId: string, approverEnabled: bool)

  function ResourceTypeOf(s: Snapshot): ResourceType {
    if s.paymentIntentId.None? then ChargeResource else PaymentIntentResource
  }

  function ResourceIdOf(s: Snapshot): string
    requires s.chargeId.Some?
  {
    if s.paymentIntentId.Some? then s.paymentIntentId.value else s.chargeId.value
  }

  /** Everything about the request except its approval that the gate reads. */
  datatype Item = Item(
    snap: Snapshot, status: WorkflowStatus, effect: EffectState, version: int, execution: Option<Execution>,
    stripeAccountId: string, requester: User, approver: User)

  /** Rebuilds the payload the approver must have signed, from current rows. */
  function PayloadFromItem(item: Item, decision: Approval): Option<Payload> {
    var s := item.snap;
    if decision.attestation.None? || s.chargeId.None? then None
    else
      var a := decision.attestation.value;
      if || decision.kind != Approve
         || decision.attestationId != Some(a.id)
         || a.requestId != s.requestId
         || a.tenantId != s.tenantId
         || a.installationId != s.installationId
         || a.approverUserId != decision.approverUserId
         || a.stripeAccountId != item.stripeAccountId
         || a.environment != s.environment
         || s.environment == Live
         || s.requiredApprovals != 1
         || !item.approver.approverEnabled
         || item.approver.id == item.requester.id
         || item.approver.stripeUserId == item.requester.stripeUserId
         || !VersionIsCompatible(item.status, item.effect, item.version, item.execution, a.requestVersion)
         || decision.decidedAt < a.verifiedAt
         || decision.decidedAt >= a.consumeBefore
         || a.resourceType != ResourceTypeOf(s)
         || a.resourceId != ResourceIdOf(s)
      then None
      else Some(Payload(
        a.envelopeHash, a.requestNonce, s.tenantId, s.installationId, item.stripeAccountId,
        s.environment, ResourceTypeOf(s), ResourceIdOf(s), s.requestId, a.requestVersion,
        decision.approverUserId, s.requesterUserId, item.approver.stripeUserId, item.requester.stripeUserId,
        s.paymentKey, s.paymentIntentId, s.chargeId.value,
        s.amountMinor, s.currency, s.reason, s.policyVersion, s.requiredApprovals,
        s.expiresAt, a.verifiedAt, a.consumeBefore))
  }

  predicate ApprovalIsValid(item: Item, decision: Option<Approval>) {
    && decision.Some?
    && PayloadFromItem(item, decision.value).Some?
    && Verify(PayloadFromItem(item, decision.value).value, decision.value.attestation.value.token)
  }

  const ATTESTATION_LIFETIME_MS: int := 5 * 60 * 1000

  /** What the approver asked the worker to attest. */
  datatype AttestInput = AttestInput(
    expectedVersion: int, amountMinor: int, currency: string, reason: string, environment: Environment,
    stripeAccountId: string, resourceType: ResourceType, resourceId: string,
    requesterStripeUserId: string, approverStripeUserId: string,
    nonce: string, envelopeHash: string, verifiedAt: Time)

  /** The payload the worker signs for a pending request, or None when refused. */
  function PayloadToSign(
    item: Item, installationActive: bool, tenantActive: bool, installationEnvironment: Environment,
    guardReleased: bool, policyRequiredApprovals: int, input: AttestInput)
    : Option<Payload>
  {
    var s := item.snap;
    if s.chargeId.None? then None
    else if || !installationActive || !tenantActive
            || installationEnvironment != input.environment
            || item.stripeAccountId != input.stripeAccountId
            || s.environment != input.environment
            || item.version != input.expectedVersion
            || s.amountMinor != input.amountMinor
            || s.currency != input.currency
            || s.reason != input.reason
            || item.requester.stripeUserId != input.requesterStripeUserId
            || item.approver.stripeUserId != input.approverStripeUserId
            || !item.approver.approverEnabled
            || item.approver.id == item.requester.id
            || item.approver.stripeUserId == item.requester.stripeUserId
            || guardReleased
            || item.effect != NotStarted
            || s.requiredApprovals != 1
            || policyRequiredApprovals != s.requiredApprovals
            || ResourceTypeOf(s) != input.resourceType
            || ResourceIdOf(s) != input.resourceId
            || item.status != PendingApproval
            || input.verifiedAt < s.createdAt
            || input.verifiedAt >= s.expiresAt then None
    else
      var consumeBefore := Min(input.verifiedAt + ATTESTATION_LIFETIME_MS, s.expiresAt);
      if consumeBefore <= input.verifiedAt then None
      else Sign(Payload(
        input.envelopeHash, input.nonce, s.tenantId, s.installationId, input.stripeAccountId,
        input.environment, ResourceTypeOf(s), ResourceIdOf(s), s.requestId, item.version,
        item.approver.id, item.requester.id, item.approver.stripeUserId, item.requester.stripeUserId,
        s.paymentKey, s.paymentIntentId, s.chargeId.value,
        s.amountMinor, s.currency, s.reason, s.policyVersion, s.requiredApprovals,
        s.expiresAt, input.verifiedAt, consumeBefore))
  }
}
