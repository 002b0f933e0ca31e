/** The pure refund policy: workflow and effect transition tables with their
    evidence conditions, the payment guard and the approval quorum. */
module Domain {
  import opened Prelude

  datatype WorkflowStatus =
    | PendingApproval | Approved | Executing | ReconciliationRequired | Succeeded
    | FailedTerminal | Rejected | Canceled | Expired | Stale

  datatype EffectState = NotStarted | Possible | Identified | AbsenceProven

  datatype RefundStatus = RefundPending | RefundRequiresAction | RefundSucceeded | RefundFailed | RefundCanceled

  datatype ErrorCode =
    | InvalidWorkflowTransition | InvalidEffectTransition | RequestExpired | SelfApproval
    | DuplicateDecision | RejectionJustificationRequired

  predicate AbsenceProving(s: Option<RefundStatus>) {
    s == Some(RefundFailed) || s == Some(RefundCanceled)
  }

  // ---------------------------------------------------------------- effect

  predicate EffectEdge(from: EffectState, to: EffectState) {
    match from
    case NotStarted => to == Possible || to == AbsenceProven
    case Possible => to == Identified || to == AbsenceProven
    case Identified => to == AbsenceProven
    case AbsenceProven => to == Possible
  }

  /** `re_` followed by at least one ASCII letter or digit. */
  predicate IsRefundId(s: string) {
    && |s| > 3 && s[..3] == "re_"
    && forall i | 3 <= i < |s| :: '0' <= s[i] <= '9' || 'A' <= s[i] <= 'Z' || 'a' <= s[i] <= 'z'
  }

  /** What an identified effect needs before it may be declared absent. */
  datatype EffectEvidence = EffectEvidence(status: Option<RefundStatus>, linked: Option<string>, observed: Option<string>)

  function TransitionEffectState(current: EffectState, target: EffectState, evidence: EffectEvidence)
    : Result<EffectState, ErrorCode>
  {
    if current == target then Ok(target)
    else if !EffectEdge(current, target) then Err(InvalidEffectTransition)
    else if current == Identified && target == AbsenceProven
            && (!AbsenceProving(evidence.status)
                || evidence.linked.None?
                || !IsRefundId(evidence.linked.value)
                || evidence.observed != evidence.linked) then
      Err(InvalidEffectTransition)
    else Ok(target)
  }

  predicate HasCertainAbsenceOfEffect(e: EffectState) { e == NotStarted || e == AbsenceProven }

  // -------------------------------------------------------------- workflow

  predicate WorkflowEdge(from: WorkflowStatus, to: WorkflowStatus) {
    match from
    case PendingApproval => to in {Approved, Rejected, Canceled, Expired, Stale}
    case Approved => to in {Executing, Stale}
    case Executing => to in {Succeeded, ReconciliationRequired, FailedTerminal}
    case ReconciliationRequired => to in {Succeeded, FailedTerminal, Executing}
    case Succeeded => to == FailedTerminal
    case _ => false
  }

  datatype Correction = Correction(
    previousEffect: EffectState, nextEffect: EffectState, linked: string, observed: string,
    previousStatus: RefundStatus, authoritative: RefundStatus)

  datatype TransitionContext = TransitionContext(
    effect: EffectState, refundStatus: Option<RefundStatus>, correction: Option<Correction>)

  function TransitionWorkflowStatus(current: WorkflowStatus, target: WorkflowStatus, context: TransitionContext)
    : Result<WorkflowStatus, ErrorCode>
  {
    var isCorrection := current == Succeeded && target == FailedTerminal;
    if current == target then Ok(current)
    else if !WorkflowEdge(current, target) then Err(InvalidWorkflowTransition)
    else if context.correction.Some? && !isCorrection then Err(InvalidWorkflowTransition)
    else if isCorrection && !CorrectionHolds(context) then Err(InvalidWorkflowTransition)
    else if current == ReconciliationRequired && target == Executing && context.effect != AbsenceProven then
      Err(InvalidWorkflowTransition)
    else if target == Succeeded && (context.effect != Identified || context.refundStatus != Some(RefundSucceeded)) then
      Err(InvalidWorkflowTransition)
    else if (target == FailedTerminal || target == Stale) && context.effect != AbsenceProven then
      Err(InvalidWorkflowTransition)
    else Ok(target)
  }

  predicate CorrectionHolds(context: TransitionContext) {
    && context.correction.Some?
    && var c := context.correction.value;
       && c.previousEffect == Identified
       && c.nextEffect == AbsenceProven
       && c.previousStatus == RefundSucceeded
       && context.refundStatus == Some(c.authoritative)
       && context.effect == AbsenceProven
       && TransitionEffectState(c.previousEffect, c.nextEffect,
                                EffectEvidence(Some(c.authoritative), Some(c.linked), Some(c.observed))).Ok?
  }

  // ------------------------------------- what the tables allow, double entry

  /** The moves of a request that some evidence can justify. */
  const WORKFLOW_MOVES: set<(WorkflowStatus, WorkflowStatus)> := {
    (PendingApproval, Approved), (PendingApproval, Rejected), (PendingApproval, Canceled), (PendingApproval, Expired),
    (PendingApproval, Stale), (Approved, Executing), (Approved, Stale), (Executing, Succeeded),
    (Executing, ReconciliationRequired), (Executing, FailedTerminal), (ReconciliationRequired, Succeeded),
    (ReconciliationRequired, FailedTerminal), (ReconciliationRequired, Executing), (Succeeded, FailedTerminal)}

  const EFFECT_MOVES: set<(EffectState, EffectState)> := {
    (NotStarted, Possible), (NotStarted, AbsenceProven), (Possible, Identified), (Possible, AbsenceProven),
    (Identified, AbsenceProven), (AbsenceProven, Possible)}

  /** Evidence under which the move is accepted, if any is. */
  function SufficientContext(from: WorkflowStatus, to: WorkflowStatus): TransitionContext {
    if from == Succeeded then
      TransitionContext(AbsenceProven, Some(RefundFailed),
                        Some(Correction(Identified, AbsenceProven, "re_1", "re_1", RefundSucceeded, RefundFailed)))
    else if to == Succeeded then TransitionContext(Identified, Some(RefundSucceeded), None)
    else TransitionContext(AbsenceProven, None, None)
  }

  /** A move is possible under some evidence exactly when it is listed. */
  lemma WorkflowMovesAreExact(from: WorkflowStatus, to: WorkflowStatus)
    requires from != to
    ensures (exists context :: TransitionWorkflowStatus(from, to, context).Ok?) <==> (from, to) in WORKFLOW_MOVES
  {
    if (from, to) in WORKFLOW_MOVES {
      assert TransitionWorkflowStatus(from, to, SufficientContext(from, to)).Ok?;
    }
  }

  lemma EffectMovesAreExact(from: EffectState, to: EffectState)
    requires from != to
    ensures (exists evidence :: TransitionEffectState(from, to, evidence).Ok?) <==> (from, to) in EFFECT_MOVES
  {
    if (from, to) in EFFECT_MOVES {
      assert TransitionEffectState(from, to, EffectEvidence(Some(RefundFailed), Some("re_1"), Some("re_1"))).Ok?;
    }
  }

  /** What a move demands of its evidence: success is confirmed, failure and
      staleness need absence, a resumption needs a proof of absence, and a
      succeeded request fails only because its own linked refund did. */
  lemma MovesNeedEvidence(from: WorkflowStatus, to: WorkflowStatus, context: TransitionContext)
    requires from != to && TransitionWorkflowStatus(from, to, context).Ok?
    ensures to == Succeeded ==> context.effect == Identified && context.refundStatus == Some(RefundSucceeded)
    ensures to == FailedTerminal || to == Stale ==> context.effect == AbsenceProven
    ensures from == ReconciliationRequired && to == Executing ==> context.effect == AbsenceProven
    ensures from == Succeeded ==>
              && context.correction.Some? && context.correction.value.linked == context.correction.value.observed
              && AbsenceProving(context.refundStatus)
    ensures context.correction.Some? ==> from == Succeeded
  {
  }

  // ----------------------------------------------------------------- guard

  predicate CanReleasePaymentGuard(status: WorkflowStatus, effect: EffectState, refundStatus: Option<RefundStatus>) {
    match status
    case ReconciliationRequired => false
    case Rejected | Canceled | Expired => HasCertainAbsenceOfEffect(effect)
    case FailedTerminal | Stale => effect == AbsenceProven
    case Succeeded => refundStatus == Some(RefundSucceeded)
    case PendingApproval | Approved | Executing => false
  }

  // ---------------------------------------------------------------- quorum

  datatype DecisionKind = Approve | Reject

  datatype Decision = Decision(approverId: string, kind: DecisionKind, decidedAt: Time)

  datatype Workflow = Workflow(
    requesterId: string, requiredApprovals: nat, expiresAt: Time,
    status: WorkflowStatus, effect: EffectState,
    refundId: Option<string>, refundStatus: Option<RefundStatus>, decisions: seq<Decision>)

  datatype DecisionInput = DecisionInput(
    approverId: string, kind: DecisionKind, decidedAt: Time, trimmedJustification: Option<string>)

  predicate HasDecided(decisions: seq<Decision>, approverId: string) {
    exists i | 0 <= i < |decisions| :: decisions[i].approverId == approverId
  }

  function CountApprovals(decisions: seq<Decision>): nat {
    if decisions == [] then 0
    else CountApprovals(decisions[..|decisions| - 1]) + if decisions[|decisions| - 1].kind == Approve then 1 else 0
  }

  function RecordDecision(w: Workflow, input: DecisionInput): Result<Workflow, ErrorCode> {
    if w.status != PendingApproval then Err(InvalidWorkflowTransition)
    else if input.decidedAt >= w.expiresAt then Err(RequestExpired)
    else if w.requesterId == input.approverId then Err(SelfApproval)
    else if HasDecided(w.decisions, input.approverId) then Err(DuplicateDecision)
    else if input.kind == Reject
            && (input.trimmedJustification.None? || |input.trimmedJustification.value| < 10) then
      Err(RejectionJustificationRequired)
    else
      var decisions := w.decisions + [Decision(input.approverId, input.kind, input.decidedAt)];
      var target :=
        if input.kind == Reject then Rejected
        else if CountApprovals(decisions) >= w.requiredApprovals then Approved
        else PendingApproval;
      match TransitionWorkflowStatus(w.status, target, TransitionContext(w.effect, None, None))
      case Ok(status) => Ok(w.(decisions := decisions, status := status))
      case Err(e) => Err(e)
  }

  /** A run of decisions: a refused decision leaves the workflow as it was. */
  function RunDecisions(w: Workflow, inputs: seq<DecisionInput>): Workflow {
    if inputs == [] then w
    else
      var before := RunDecisions(w, inputs[..|inputs| - 1]);
      match RecordDecision(before, inputs[|inputs| - 1])
      case Ok(after) => after
      case Err(_) => before
  }

  /** Pairwise distinct people, none of them the requester, all in time. */
  predicate DistinctTimely(w: Workflow) {
    && (forall i, j | 0 <= i < j < |w.decisions| :: w.decisions[i].approverId != w.decisions[j].approverId)
    && forall i | 0 <= i < |w.decisions| ::
         w.decisions[i].approverId != w.requesterId && w.decisions[i].decidedAt < w.expiresAt
  }

  predicate AllApprovals(decisions: seq<Decision>) {
    forall i | 0 <= i < |decisions| :: decisions[i].kind == Approve
  }

  predicate Quorate(w: Workflow) {
    && DistinctTimely(w)
    && match w.status
       case PendingApproval => AllApprovals(w.decisions) && |w.decisions| < w.requiredApprovals
       case Approved => AllApprovals(w.decisions) && |w.decisions| == w.requiredApprovals
       case Rejected =>
         && 0 < |w.decisions| <= w.requiredApprovals
         && AllApprovals(w.decisions[..|w.decisions| - 1])
         && w.decisions[|w.decisions| - 1].kind == Reject
       case _ => false
  }

  lemma {:induction false} CountAllApprovals(decisions: seq<Decision>)
    requires AllApprovals(decisions)
    ensures CountApprovals(decisions) == |decisions|
  {
    if decisions != [] {
      CountAllApprovals(decisions[..|decisions| - 1]);
    }
  }

  lemma CountAppend(decisions: seq<Decision>, d: Decision)
    ensures CountApprovals(decisions + [d]) == CountApprovals(decisions) + if d.kind == Approve then 1 else 0
  {
    assert (decisions + [d])[..|decisions|] == decisions;
  }

  /** An accepted decision is by somebody new, not the requester, in time. */
  lemma DecisionKeepsDistinct(w: Workflow, input: DecisionInput)
    requires DistinctTimely(w) && RecordDecision(w, input).Ok?
    ensures DistinctTimely(RecordDecision(w, input).value)
  {
  }

  lemma DecisionKeepsQuorum(w: Workflow, input: DecisionInput)
    requires Quorate(w)
    ensures RecordDecision(w, input).Ok? ==> Quorate(RecordDecision(w, input).value)
  {
    if RecordDecision(w, input).Ok? {
      DecisionKeepsDistinct(w, input);
      var w' := RecordDecision(w, input).value;
      var d := Decision(input.approverId, input.kind, input.decidedAt);
      assert w.status == PendingApproval && w'.decisions == w.decisions + [d];
      assert w'.decisions[..|w'.decisions| - 1] == w.decisions;
      CountAllApprovals(w.decisions);
      CountAppend(w.decisions, d);
    }
  }

  /** Over every run of decisions a pending workflow holds fewer approvals than
      required, an approved one exactly as many, all by different people other
      than the requester and before expiry; rejection is by one last decision. */
  lemma {:induction false} EveryDecisionRunIsQuorate(w: Workflow, inputs: seq<DecisionInput>)
    requires w.status == PendingApproval && w.decisions == [] && w.requiredApprovals >= 1
    ensures Quorate(RunDecisions(w, inputs))
    ensures RunDecisions(w, inputs).requesterId == w.requesterId
    ensures RunDecisions(w, inputs).requiredApprovals == w.requiredApprovals
  {
    if inputs != [] {
      EveryDecisionRunIsQuorate(w, inputs[..|inputs| - 1]);
      DecisionKeepsQuorum(RunDecisions(w, inputs[..|inputs| - 1]), inputs[|inputs| - 1]);
    }
  }

  /** Somebody may decide now: the request is pending and unexpired, and the person
      is neither the requester nor has decided before. */
  predicate MayDecide(w: Workflow, input: DecisionInput) {
    && w.status == PendingApproval && input.decidedAt < w.expiresAt && input.approverId != w.requesterId
    && forall i | 0 <= i < |w.decisions| :: w.decisions[i].approverId != input.approverId
  }

  lemma HasDecidedIff(decisions: seq<Decision>, approverId: string)
    ensures !HasDecided(decisions, approverId) <==> forall i | 0 <= i < |decisions| :: decisions[i].approverId != approverId
  {
  }

  /** Exactly which decisions are accepted: by those who may decide, a rejection
      only with a justification of at least ten characters. */
  lemma DecisionAcceptedIff(w: Workflow, input: DecisionInput)
    ensures RecordDecision(w, input).Ok? <==>
              && MayDecide(w, input)
              && (input.kind == Reject ==> input.trimmedJustification.Some? && |input.trimmedJustification.value| >= 10)
  {
    HasDecidedIff(w.decisions, input.approverId);
  }

  /** An accepted decision is appended; a rejection rejects, an approval approves
      once it completes the quorum. */
  lemma AcceptedDecisionCounts(w: Workflow, input: DecisionInput)
    requires RecordDecision(w, input).Ok?
    ensures var w' := RecordDecision(w, input).value;
            && w'.decisions == w.decisions + [Decision(input.approverId, input.kind, input.decidedAt)]
            && w' == w.(decisions := w'.decisions, status := w'.status)
            && w'.status == if input.kind == Reject then Rejected
                            else if CountApprovals(w.decisions) + 1 >= w.requiredApprovals then Approved else PendingApproval
  {
    CountAppend(w.decisions, Decision(input.approverId, input.kind, input.decidedAt));
  }
}
