/** One refund request with its execution, attempts and correlation candidates,
    and every database transaction that touches it. A transaction that throws
    is None: it leaves no trace. */
module RefundRow {
  import opened Prelude
  import opened Domain
  import opened Observation
  import opened Execution
  import opened Attestation

  datatype Evidence = EvidenceAbsent | EvidenceExact | EvidenceMismatch

  datatype CandidateState = CandidatePending | CandidateConflict | UniqueLinked | ExactLinked

  /** The columns of a candidate that may never disagree between sightings. */
  datatype RefundTuple = RefundTuple(
    installationId: string, paymentKey: string, paymentIntentId: Option<string>, chargeId: Option<string>,
    amountMinor: int, currency: string, createdAt: Time)

  datatype Candidate = Candidate(
    tuple: RefundTuple, status: Option<RefundStatus>, stateObservedAt: Time, eventAt: Option<Time>,
    evidence: Evidence, lastSeenWindowEnd: Option<Time>, state: CandidateState)

  datatype Row = Row(
    snap: Snapshot, approval: Option<Approval>,
    status: WorkflowStatus, effect: EffectState, version: int,
    guardReleasedAt: Option<Time>, executionStartedAt: Option<Time>, safeAfterAt: Option<Time>, terminalAt: Option<Time>,
    execution: Option<Execution>, candidates: map<string, Candidate>)

  function NewRow(snap: Snapshot): Row {
    Row(snap, None, PendingApproval, NotStarted, 0, None, None, None, None, None, map[])
  }

  function LinkOf(r: Row): Option<string> {
    if r.execution.None? then None else r.execution.value.refundId
  }

  function RefundStatusOf(r: Row): Option<RefundStatus> {
    if r.execution.None? then None else r.execution.value.refundStatus
  }

  function AttemptsOf(r: Row): seq<Attempt> {
    if r.execution.None? then [] else r.execution.value.attempts
  }

  /** The columns that only an approval may write. */
  predicate SameRequest(r: Row, r': Row) { r'.snap == r.snap && r'.approval == r.approval }

  predicate Effective(e: EffectState) { e == Possible || e == Identified }

  predicate Running(s: WorkflowStatus) { s == Executing || s == ReconciliationRequired }

  // ---------------------------------------- single-row UPDATE statements

  function Bump(r: Row): Row { r.(version := r.version + 1) }

  function Terminate(r: Row, status: WorkflowStatus, now: Time): Row {
    Bump(r.(status := status, terminalAt := Some(now), guardReleasedAt := Some(now)))
  }

  /** Moving into reconciliation; a trigger stamps the safe boundary with the
      later of the database clock and the execution start. */
  function EnterReconciliation(r: Row, now: Time): Row {
    Bump(r.(status := ReconciliationRequired,
            safeAfterAt := if r.status == ReconciliationRequired then r.safeAfterAt
                           else if r.executionStartedAt.Some? then Some(Max(now, r.executionStartedAt.value))
                           else Some(now)))
  }

  function MarkReconciliationRequired(r: Row, now: Time): Option<Row> {
    if r.status == Executing && r.guardReleasedAt.None? then Some(EnterReconciliation(r, now)) else None
  }

  function Diverted(r: Row, now: Time): (r': Row)
    ensures SameRequest(r, r')
  {
    match MarkReconciliationRequired(r, now) case Some(r') => r' case None => r
  }

  function ClaimExecution(r: Row, now: Time): Option<Row> {
    if r.status == Approved && r.effect == NotStarted && r.guardReleasedAt.None?
    then Some(Bump(r.(status := Executing, executionStartedAt := Some(now)))) else None
  }

  function ResumeExecutionAfterAbsence(r: Row, now: Time): Option<Row> {
    if r.status == ReconciliationRequired && r.effect == AbsenceProven
    then Some(Bump(r.(status := Executing, executionStartedAt := Some(now)))) else None
  }

  function MarkEffectPossible(r: Row): Option<Row> {
    if r.status == Executing && HasCertainAbsenceOfEffect(r.effect) then Some(Bump(r.(effect := Possible))) else None
  }

  function MarkAbsenceProven(r: Row): Option<Row> {
    if r.status == ReconciliationRequired && r.effect == Possible then Some(Bump(r.(effect := AbsenceProven))) else None
  }

  function MarkCertainAbsenceWhileExecuting(r: Row): Option<Row> {
    if r.status == Executing && r.effect == Possible then Some(Bump(r.(effect := AbsenceProven))) else None
  }

  function MarkTerminalFailureAfterAbsence(r: Row, now: Time): Option<Row> {
    if r.status == Executing && HasCertainAbsenceOfEffect(r.effect)
    then Some(Terminate(r.(effect := AbsenceProven), FailedTerminal, now)) else None
  }

  function FinishExecutionAttempt(r: Row, i: nat, state: AttemptState): (o: Option<Row>)
    ensures o.Some? ==> SameRequest(r, o.value)
  {
    if r.execution.Some? && i < |r.execution.value.attempts| && r.execution.value.attempts[i].state == Started then
      var x := r.execution.value;
      Some(r.(execution := Some(x.(attempts := x.attempts[i := x.attempts[i].(state := state)]))))
    else None
  }

  /** Deauthorization and external-refund observation settle a row alike. */
  function Settle(r: Row, now: Time): (r': Row)
    ensures SameRequest(r, r')
  {
    if r.guardReleasedAt.Some? then r
    else if (r.status == PendingApproval || r.status == Approved) && r.effect == NotStarted then
      Terminate(r.(effect := AbsenceProven), Stale, now)
    else if r.status == Executing && HasCertainAbsenceOfEffect(r.effect) then
      Terminate(r.(effect := AbsenceProven), FailedTerminal, now)
    else if r.status == Executing then EnterReconciliation(r, now)
    else r
  }

  // ---------------------------------------------- markRefundIdentified

  datatype Identification = Identification(
    refundId: string, status: Option<RefundStatus>, resolve: bool, eventAt: Option<Time>)

  function MarkRefundIdentified(r: Row, input: Identification, now: Time): (o: Option<Row>)
    ensures o.Some? ==> SameRequest(r, o.value)
  {
    if r.execution.None? then None
    else
      var x := r.execution.value;
      if x.refundId.Some? && x.refundId.value != input.refundId then None
      else if !ShouldApplyRefundObservation(Stored(x.refundStatus, x.lastEventAt), input.status, input.eventAt) then Some(r)
      else if !IsRefundId(input.refundId) then None
      else
        var linked := r.(execution := Some(x.(
          refundId := Some(input.refundId), refundStatus := input.status,
          lastEventAt := if input.eventAt.Some? then input.eventAt else x.lastEventAt)));
        ConvergeWorkflow(linked, x.refundStatus, input, now)
  }

  /** The request update that follows a stored observation. */
  function ConvergeWorkflow(r: Row, previous: Option<RefundStatus>, input: Identification, now: Time): (o: Option<Row>)
    ensures o.Some? ==> SameRequest(r, o.value)
  {
    if r.status == Succeeded && previous == Some(RefundSucceeded) && AbsenceProving(input.status) then
      if r.effect == Identified then Some(Bump(r.(effect := AbsenceProven, status := FailedTerminal))) else None
    else if !Running(r.status) then Some(r)
    else if r.status == ReconciliationRequired && !input.resolve then ProtectReconciliation(r)
    else if !Effective(r.effect) then None
    else
      match input.status
      case None =>
        Some(EnterReconciliation(r.(effect := Identified), now))
      case Some(RefundPending) | Some(RefundRequiresAction) =>
        Some(Bump(r.(effect := Identified)))
      case Some(RefundSucceeded) =>
        Some(Terminate(r.(effect := Identified), Succeeded, now))
      case Some(RefundFailed) | Some(RefundCanceled) =>
        Some(Terminate(r.(effect := AbsenceProven), FailedTerminal, now))
  }

  /** A reconciling request keeps reconciling; only its effect is identified. */
  function ProtectReconciliation(r: Row): Option<Row> {
    if r.guardReleasedAt.Some? then None
    else
      var possible := if HasCertainAbsenceOfEffect(r.effect) then Bump(r.(effect := Possible)) else r;
      Some(Bump(possible.(effect := Identified)))
  }

  // -------------------------------------------------------- candidates

  datatype CandidateDecision =
    AlreadyLinked | ProofReplayDecision | LinkExact | LinkUnique | WaitForCompleteScan | ConflictDecision

  function DecideRefundCandidate(
    linked: Option<string>, candidate: string, evidence: Evidence, count: int, completeScan: bool, covers: bool)
    : CandidateDecision
  {
    if linked.Some? then if linked.value == candidate then AlreadyLinked else ProofReplayDecision
    else if evidence == EvidenceExact then LinkExact
    else if evidence == EvidenceMismatch || count > 1 then ConflictDecision
    else if completeScan && covers then LinkUnique
    else WaitForCompleteScan
  }

  datatype CandidateInput = CandidateInput(
    tuple: RefundTuple, status: Option<RefundStatus>, eventAt: Option<Time>, evidence: Evidence,
    windowEnd: Option<Time>, observedAt: Time)

  function FreshCandidate(input: CandidateInput): Candidate {
    Candidate(input.tuple, input.status, StateObservedAt(input), input.eventAt, input.evidence, input.windowEnd, CandidatePending)
  }

  function StateObservedAt(input: CandidateInput): Time {
    if input.eventAt.Some? then input.eventAt.value
    else if input.windowEnd.Some? then input.windowEnd.value else input.observedAt
  }

  function MergeCandidate(c: Candidate, input: CandidateInput): Candidate {
    var evidence :=
      if c.evidence == EvidenceExact || input.evidence == EvidenceExact then EvidenceExact
      else if c.evidence == EvidenceMismatch || input.evidence == EvidenceMismatch then EvidenceMismatch
      else EvidenceAbsent;
    var lastSeen :=
      if input.windowEnd.None? then c.lastSeenWindowEnd
      else if c.lastSeenWindowEnd.None? || input.windowEnd.value > c.lastSeenWindowEnd.value then input.windowEnd
      else c.lastSeenWindowEnd;
    var newer := StateObservedAt(input) >= c.stateObservedAt;
    var preserveExact := c.evidence == EvidenceExact && input.evidence != EvidenceExact;
    var replaceEvent :=
      input.eventAt.Some? && !preserveExact
      && (input.evidence == EvidenceExact || c.eventAt.None? || input.eventAt.value >= c.eventAt.value);
    c.(status := if newer then input.status else c.status,
       stateObservedAt := if newer then StateObservedAt(input) else c.stateObservedAt,
       eventAt := if replaceEvent then input.eventAt else c.eventAt,
       evidence := evidence,
       lastSeenWindowEnd := lastSeen)
  }

  function Conflicted(candidates: map<string, Candidate>): map<string, Candidate> {
    map id | id in candidates ::
      if candidates[id].state == CandidatePending then candidates[id].(state := CandidateConflict) else candidates[id]
  }

  function RecordCandidate(r: Row, id: string, input: CandidateInput): (o: Option<Row>)
    ensures o.Some? ==> SameRequest(r, o.value)
  {
    var before := if id in r.candidates then r.candidates[id] else FreshCandidate(input);
    if before.tuple != input.tuple then None
    else
      var all := r.candidates[id := MergeCandidate(before, input)];
      Some(r.(candidates := if |all| > 1 then Conflicted(all) else all))
  }

  function MarkCandidateLinked(r: Row, id: string, state: CandidateState): (o: Option<Row>)
    ensures o.Some? ==> SameRequest(r, o.value)
  {
    if id in r.candidates && (state == ExactLinked || r.candidates[id].state != ExactLinked)
    then Some(r.(candidates := r.candidates[id := r.candidates[id].(state := state)])) else None
  }

  function LinkCandidateIfAny(r: Row, id: string, state: CandidateState): (r': Row)
    ensures SameRequest(r, r')
  {
    match MarkCandidateLinked(r, id, state) case Some(r') => r' case None => r
  }

  // ------------------------------------------------- refund observation

  datatype Classification = External | Tampered | WorkflowCandidate | WorkflowRefund | ProofReplay

  function ClassifyRefundEvidence(
    candidate: string, metadataRequestId: Option<string>, hasProof: bool, expectedRequestId: string, proofValid: bool,
    linked: Option<string>): Classification
  {
    if metadataRequestId.None? || !hasProof then External
    else if metadataRequestId.value != expectedRequestId || !proofValid then Tampered
    else if linked.None? then WorkflowCandidate
    else if linked.value == candidate then WorkflowRefund
    else ProofReplay
  }

  /** The fields a refund proof signs; the signature is idealised. */
  datatype Proof = Proof(
    tenantId: string, stripeAccountId: string, requestId: string, paymentKey: string, amountMinor: int,
    currency: string, environment: Environment)

  function ProofFor(s: Snapshot, account: string): Proof {
    Proof(s.tenantId, account, s.requestId, s.paymentKey, s.amountMinor, s.currency, s.environment)
  }

  datatype Sighting = Sighting(
    refundId: string, reported: Option<RefundStatus>, environment: Environment, tuple: RefundTuple,
    metadataRequestId: Option<string>, proof: Option<Proof>, source: Source)

  predicate TupleMatches(s: Snapshot, environment: Environment, t: RefundTuple) {
    && s.installationId == t.installationId
    && s.environment == environment
    && s.paymentKey == t.paymentKey
    && s.amountMinor == t.amountMinor
    && s.currency == t.currency
    && (s.paymentIntentId.None? || s.paymentIntentId == t.paymentIntentId)
    && (s.chargeId.None? || s.chargeId == t.chargeId)
  }

  predicate ProofValid(s: Snapshot, account: string, o: Sighting) {
    TupleMatches(s, o.environment, o.tuple) && o.proof == Some(ProofFor(s, account))
  }

  function EvidenceOf(r: Row, source: Source): Evidence {
    if source.Scan? || source.idempotencyKey.None? then EvidenceAbsent
    else if r.execution.Some? && source.idempotencyKey.value == r.execution.value.key then EvidenceExact
    else EvidenceMismatch
  }

  /** What observing a sighting did to the request it names: the new row, the
      alert still to raise, and whether the other candidates are replays. */
  datatype Observed = Observed(row: Row, alert: Option<Classification>, replaysOthers: bool)

  function ClassifyFor(r: Row, account: string, o: Sighting): Classification {
    ClassifyRefundEvidence(
      o.refundId, o.metadataRequestId, o.proof.Some?, r.snap.requestId, ProofValid(r.snap, account, o), LinkOf(r))
  }

  function InputOf(r: Row, o: Sighting, now: Time): CandidateInput {
    CandidateInput(o.tuple, AuthoritativeStatus(o.source, o.reported), EventTime(o.source), EvidenceOf(r, o.source),
                   if o.source.Scan? then Some(o.source.windowEnd) else None, now)
  }

  function IdentificationOf(o: Sighting): Identification {
    Identification(o.refundId, AuthoritativeStatus(o.source, o.reported), false, EventTime(o.source))
  }

  function AlertOf(c: Classification): Option<Classification> {
    if c == External || c == Tampered || c == ProofReplay then Some(c) else None
  }

  function Observe(r: Row, account: string, o: Sighting, now: Time): (out: Option<Observed>)
    ensures out.Some? ==> SameRequest(r, out.value.row)
  {
    var c := ClassifyFor(r, account, o);
    if r.execution.None? || c == External || c == Tampered then Some(Observed(r, AlertOf(c), false))
    else
      var recorded := RecordCandidate(r, o.refundId, InputOf(r, o, now));
      if recorded.None? then None
      else if c == WorkflowCandidate && Running(r.status) then ObserveUnlinked(recorded.value, o, now)
      else if c == WorkflowRefund then ObserveLinked(recorded.value, o, now)
      else Some(Observed(recorded.value, AlertOf(c), false))
  }

  /** A proven sighting of a request that has no linked refund yet. */
  function ObserveUnlinked(r: Row, o: Sighting, now: Time): (out: Option<Observed>)
    ensures out.Some? ==> SameRequest(r, out.value.row)
  {
    var evidence := EvidenceOf(r, o.source);
    match DecideRefundCandidate(None, o.refundId, evidence, Max(1, |r.candidates|), false, false)
    case LinkExact =>
      (match MarkRefundIdentified(r, IdentificationOf(o), now)
       case None => None
       case Some(r') => Some(Observed(LinkCandidateIfAny(r', o.refundId, ExactLinked), None, true)))
    case ConflictDecision =>
      Some(Observed(Diverted(r, now), Some(if evidence == EvidenceMismatch then Tampered else ProofReplay), false))
    case _ =>
      Some(Observed(Diverted(r, now), None, false))
  }

  /** A proven sighting of the refund this request is linked to. */
  function ObserveLinked(r: Row, o: Sighting, now: Time): (out: Option<Observed>)
    requires r.execution.Some? && o.refundId in r.candidates
    ensures out.Some? ==> SameRequest(r, out.value.row)
  {
    var x := r.execution.value;
    var handled := !ShouldApplyLinkedRefundObservation(Stored(x.refundStatus, x.lastEventAt), o.source, o.reported);
    var keepUnique := r.candidates[o.refundId].state == UniqueLinked && EvidenceOf(r, o.source) != EvidenceExact;
    match MarkCandidateLinked(r, o.refundId, if keepUnique then UniqueLinked else ExactLinked)
    case None => None
    case Some(r1) =>
      if handled then Some(Observed(r1, None, false))
      else
        match MarkRefundIdentified(r1, IdentificationOf(o), now)
        case None => None
        case Some(r2) => Some(Observed(r2, None, false))
  }

  /** The linked-refund refresh lane. */
  function Refresh(r: Row, refundId: string, environment: Environment, t: RefundTuple, status: Option<RefundStatus>, now: Time)
    : (o: Option<Row>)
    ensures o.Some? ==> SameRequest(r, o.value)
  {
    if LinkOf(r) != Some(refundId) || !TupleMatches(r.snap, environment, t) then None
    else
      var settled := status.Some? && !Unsettled(status);
      MarkRefundIdentified(r, Identification(refundId, status, settled, None), now)
  }

  // -------------------------------------------------- scan resolution

  predicate ScanCovers(r: Row, windowStart: Time, windowEnd: Time) {
    && r.executionStartedAt.Some? && r.safeAfterAt.Some?
    && windowStart <= r.executionStartedAt.value <= r.safeAfterAt.value <= windowEnd
  }

  /** Which requests a committed scan looks at. */
  predicate SelectedByScan(r: Row, installationId: string, windowStart: Time, windowEnd: Time) {
    || (exists id | id in r.candidates ::
          r.candidates[id].tuple.installationId == installationId && r.candidates[id].lastSeenWindowEnd == Some(windowEnd))
    || (&& r.snap.installationId == installationId
        && r.status == ReconciliationRequired && r.effect == Possible && r.guardReleasedAt.None?
        && ScanCovers(r, windowStart, windowEnd))
  }

  /** One iteration of the resolution loop; `first` is the candidate listed
      first and `unresolvedAlert` the payment's unresolved external conflict. */
  function ResolveByScan(
    r: Row, unresolvedAlert: bool, first: string, windowStart: Time, windowEnd: Time, now: Time): (o: Option<Row>)
    ensures o.Some? ==> SameRequest(r, o.value)
  {
    if r.execution.None? || LinkOf(r).Some? || !ScanCovers(r, windowStart, windowEnd) then Some(r)
    else if r.candidates == map[] then
      if unresolvedAlert then Some(Diverted(r, now))
      else
        match MarkAbsenceProven(r)
        case None => None
        case Some(r') => ResumeExecutionAfterAbsence(r', now)
    else if first !in r.candidates then None
    else
      var c := r.candidates[first];
      match DecideRefundCandidate(None, first, c.evidence, |r.candidates|, true, true)
      case ConflictDecision =>
        Some(Diverted(r.(candidates := Conflicted(r.candidates)), now))
      case LinkUnique =>
        if c.lastSeenWindowEnd.None? || c.state == CandidateConflict then Some(Diverted(r, now))
        else
          (match MarkRefundIdentified(r, Identification(first, c.status, !unresolvedAlert, c.eventAt), now)
           case None => None
           case Some(r') => Some(LinkCandidateIfAny(r', first, UniqueLinked)))
      case _ => Some(Diverted(r, now))
  }

  // ---------------------------------------------- row transactions

  datatype RowTx =
    | TxApprove(approval: Approval)
    | TxReject(now: Time)
    | TxCancel(now: Time)
    | TxExpire(now: Time)
    | TxClaim(now: Time)
    | TxCross(account: string, key: string, now: Time)
    | TxDivert(now: Time)
    | TxIdentified(attempt: nat, refundId: string, status: Option<RefundStatus>, now: Time)
    | TxRetryable(attempt: nat)
    | TxAmbiguous(attempt: nat, now: Time)
    | TxTerminalAttempt(attempt: nat, now: Time)
    | TxTerminal(now: Time)
    | TxObserve(account: string, sighting: Sighting, now: Time)
    | TxRefresh(refundId: string, environment: Environment, tuple: RefundTuple, status: Option<RefundStatus>, now: Time)
    | TxResolve(unresolvedAlert: bool, first: string, windowStart: Time, windowEnd: Time, now: Time)
    | TxSettle(now: Time)

  /** An approval consumes an attestation of the version it decides on. */
  function ApproveRow(r: Row, a: Approval): Option<Row> {
    if && r.status == PendingApproval && a.kind == Approve
       && a.attestation.Some? && a.attestation.value.requestVersion == r.version
       && a.decidedAt < r.snap.expiresAt
    then Some(Bump(r.(status := Approved, approval := Some(a)))) else None
  }

  function EndPending(r: Row, status: WorkflowStatus, now: Time): Option<Row> {
    if r.status == PendingApproval && r.effect == NotStarted then Some(Terminate(r, status, now)) else None
  }

  function ParamsOf(s: Snapshot, account: string): Params {
    Params(s.requestId, account, s.environment, s.paymentKey, s.paymentIntentId, s.chargeId, s.amountMinor, s.currency, s.reason)
  }

  /** Create-or-keep of the execution row. */
  function EnsureExecution(r: Row, account: string, key: string): Execution {
    if r.execution.Some? then r.execution.value
    else Execution(key, ParamsOf(r.snap, account), None, None, None, [])
  }

  /** The write-ahead effect boundary, once the approval gate let it through. */
  function CrossBoundary(r: Row, account: string, key: string): (o: Option<Row>)
    ensures o.Some? ==> SameRequest(r, o.value)
  {
    if || r.status != Executing || r.guardReleasedAt.Some? || LinkOf(r).Some?
       || !HasCertainAbsenceOfEffect(r.effect)
       || (r.effect == AbsenceProven && r.execution.None?)
       || (r.execution.Some? && r.execution.value.key != key) then None
    else
      var x := EnsureExecution(r, account, key);
      if x.key != key || x.params != ParamsOf(r.snap, account) then None
      else
        match MarkEffectPossible(r)
        case None => None
        case Some(r') =>
          Some(r'.(execution := Some(x.(attempts := x.attempts + [Attempt(MaxNumber(x.attempts) + 1, Started)]))))
  }

  /** Identifies the refund and links its candidate row, if it has one. */
  function IdentifyAndLink(r: Row, refundId: string, status: Option<RefundStatus>, now: Time): (o: Option<Row>)
    ensures o.Some? ==> SameRequest(r, o.value)
  {
    match MarkRefundIdentified(r, Identification(refundId, status, false, None), now)
    case None => None
    case Some(r') => Some(LinkCandidateIfAny(r', refundId, ExactLinked))
  }

  function RecordIdentified(r: Row, i: nat, refundId: string, status: Option<RefundStatus>, now: Time): (o: Option<Row>)
    ensures o.Some? ==> SameRequest(r, o.value)
  {
    match IdentifyAndLink(r, refundId, status, now)
    case None => None
    case Some(r') => FinishExecutionAttempt(r', i, Completed)
  }

  /** A definite refusal finishes its attempt and proves the effect absent. */
  function RecordRefusal(r: Row, i: nat, state: AttemptState): (o: Option<Row>)
    ensures o.Some? ==> SameRequest(r, o.value)
  {
    match FinishExecutionAttempt(r, i, state)
    case None => None
    case Some(r') => MarkCertainAbsenceWhileExecuting(r')
  }

  function RecordRetryable(r: Row, i: nat): (o: Option<Row>)
    ensures o.Some? ==> SameRequest(r, o.value)
  {
    RecordRefusal(r, i, RetryableFailure)
  }

  function RecordAmbiguous(r: Row, i: nat, now: Time): (o: Option<Row>)
    ensures o.Some? ==> SameRequest(r, o.value)
  {
    match FinishExecutionAttempt(r, i, AmbiguousFailure)
    case None => None
    case Some(r') => MarkReconciliationRequired(r', now)
  }

  function RecordTerminalAttempt(r: Row, i: nat, now: Time): (o: Option<Row>)
    ensures o.Some? ==> SameRequest(r, o.value)
  {
    match RecordRefusal(r, i, TerminalFailure)
    case None => None
    case Some(r') => MarkTerminalFailureAfterAbsence(r', now)
  }

  /** None means the transaction threw, or found nothing it may change. */
  function Try(r: Row, tx: RowTx): (o: Option<Row>)
    ensures o.Some? ==> o.value.snap == r.snap && (tx.TxApprove? || SameRequest(r, o.value))
  {
    match tx
    case TxApprove(a) => ApproveRow(r, a)
    case TxReject(now) => EndPending(r, Rejected, now)
    case TxCancel(now) => EndPending(r, Canceled, now)
    case TxExpire(now) => if now >= r.snap.expiresAt then EndPending(r, Expired, now) else None
    case TxClaim(now) => ClaimExecution(r, now)
    case TxCross(account, key, _) => CrossBoundary(r, account, key)
    case TxDivert(now) => MarkReconciliationRequired(r, now)
    case TxIdentified(i, id, status, now) => RecordIdentified(r, i, id, status, now)
    case TxRetryable(i) => RecordRetryable(r, i)
    case TxAmbiguous(i, now) => RecordAmbiguous(r, i, now)
    case TxTerminalAttempt(i, now) => RecordTerminalAttempt(r, i, now)
    case TxTerminal(now) => MarkTerminalFailureAfterAbsence(r, now)
    case TxObserve(account, o, now) =>
      (match Observe(r, account, o, now) case None => None case Some(out) => Some(out.row))
    case TxRefresh(id, environment, t, status, now) => Refresh(r, id, environment, t, status, now)
    case TxResolve(alert, first, ws, we, now) => ResolveByScan(r, alert, first, ws, we, now)
    case TxSettle(now) => Some(Settle(r, now))
  }

  function Apply(r: Row, tx: RowTx): (r': Row)
    ensures r'.snap == r.snap && (tx.TxApprove? || SameRequest(r, r'))
  { match Try(r, tx) case Some(r') => r' case None => r }

  /** Any interleaving of transactions by any actors, oldest first. */
  function Run(r: Row, txs: seq<RowTx>): Row {
    if txs == [] then r else Apply(Run(r, txs[..|txs| - 1]), txs[|txs| - 1])
  }
}
