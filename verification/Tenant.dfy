/** One tenant: its installations, people, refund requests and external-refund
    alerts, with the transactions of the web and worker stores. A transaction
    that throws is None. */
module Tenant {
  import opened Prelude
  import opened Domain
  import opened Observation
  import opened Execution
  import opened Attestation
  import opened RefundRow

  datatype LifecycleKind = Authorized | Deauthorized

  datatype Lifecycle = Lifecycle(eventId: string, kind: LifecycleKind, createdAt: Time)

  datatype Installation = Installation(
    environment: Environment, stripeAccountId: string, active: bool, lastLifecycle: Option<Lifecycle>)

  datatype Alert = Alert(
    environment: Environment, createdAt: Time, paymentKey: string, amountMinor: int, currency: string,
    classification: Classification)

  datatype Db = Db(
    tenantActive: bool, liveEnabled: bool, installations: map<string, Installation>, users: map<string, User>,
    rows: map<string, Row>, alerts: map<(string, string), Alert>, signed: set<Payload>)

  function SetRow(db: Db, id: string, r: Row): Db { db.(rows := db.rows[id := r]) }

  /** Observations write requests and alerts and nothing else. */
  predicate SameTenant(db: Db, db': Db) { db' == db.(rows := db'.rows, alerts := db'.alerts) }

  // ------------------------------------------------------ execution gate

  predicate HasActivePilotExecutionContext(db: Db, s: Snapshot) {
    && db.tenantActive && !db.liveEnabled
    && s.environment != Live
    && s.installationId in db.installations
    && db.installations[s.installationId].active
    && db.installations[s.installationId].environment == s.environment
  }

  /** The joined work item, or None when a referenced row is missing. */
  function WorkItem(db: Db, r: Row): Option<Item> {
    if || r.approval.None?
       || r.snap.installationId !in db.installations
       || r.snap.requesterUserId !in db.users
       || r.approval.value.approverUserId !in db.users then None
    else Some(Item(r.snap, r.status, r.effect, r.version, r.execution,
                   db.installations[r.snap.installationId].stripeAccountId,
                   db.users[r.snap.requesterUserId], db.users[r.approval.value.approverUserId]))
  }

  predicate ApprovalAttestationIsValid(db: Db, r: Row) {
    WorkItem(db, r).Some? && ApprovalIsValid(WorkItem(db, r).value, r.approval)
  }

  /** A row whose execution cannot safely be retried as it stands. */
  predicate MustReconcile(r: Row, key: string) {
    || r.effect == Possible
    || (r.effect == AbsenceProven && r.execution.None?)
    || (r.execution.Some? && r.execution.value.key != key)
  }

  /** Loading a job: claims an approved request, diverts an unsafe one. */
  function LoadRefundExecution(db: Db, id: string, key: string, now: Time): Db {
    if id !in db.rows || !HasActivePilotExecutionContext(db, db.rows[id].snap) then db
    else
      var r := db.rows[id];
      if !ApprovalAttestationIsValid(db, r) then
        if r.effect == Possible then SetRow(db, id, Diverted(r, now)) else db
      else
        match Claimed(r, now)
        case None => db
        case Some(c) =>
          SetRow(db, id, if Loadable(db, c) && MustReconcile(c, key) then Diverted(c, now) else c)
  }

  function Claimed(r: Row, now: Time): Option<Row> {
    if r.status == Approved && r.effect == NotStarted then ClaimExecution(r, now) else Some(r)
  }

  /** What loading asks of a row before it hands out a record. */
  predicate Loadable(db: Db, r: Row) {
    && HasActivePilotExecutionContext(db, r.snap) && ApprovalAttestationIsValid(db, r)
    && r.status == Executing && r.effect != Identified && r.snap.chargeId.Some?
  }

  /** Whether loading handed a record to the worker. */
  predicate HandedOut(db: Db, id: string, key: string) {
    id in db.rows && Loadable(db, db.rows[id]) && !MustReconcile(db.rows[id], key)
  }

  datatype BoundaryDecision =
    | Execute(attempt: nat) | AlreadyIdentified(refundId: string) | NeedsReconciliation | NotExecutable | BoundaryThrew

  /** The write-ahead effect boundary with its authorization gate. */
  function PersistEffectBoundary(db: Db, id: string, key: string, now: Time): (Db, BoundaryDecision) {
    if id !in db.rows then (db, NotExecutable)
    else
      var r := db.rows[id];
      if r.status != Executing then
        (db, if r.status == ReconciliationRequired then NeedsReconciliation else NotExecutable)
      else if !HasActivePilotExecutionContext(db, r.snap) || r.guardReleasedAt.Some? then (db, NotExecutable)
      else if !ApprovalAttestationIsValid(db, r) then
        if r.effect == Possible then (SetRow(db, id, Diverted(r, now)), NeedsReconciliation) else (db, NotExecutable)
      else if LinkOf(r).Some? then (db, AlreadyIdentified(LinkOf(r).value))
      else if MustReconcile(r, key) then (SetRow(db, id, Diverted(r, now)), NeedsReconciliation)
      else if !HasCertainAbsenceOfEffect(r.effect) then (db, NotExecutable)
      else
        match CrossBoundary(r, db.installations[r.snap.installationId].stripeAccountId, key)
        case None => (db, BoundaryThrew)
        case Some(crossed) => (SetRow(db, id, crossed), Execute(|AttemptsOf(crossed)| - 1))
  }

  // ------------------------------------------------- external refunds

  predicate OnPayment(s: Snapshot, installationId: string, environment: Environment, paymentKey: string) {
    s.installationId == installationId && s.environment == environment && s.paymentKey == paymentKey
  }

  function SettlePayment(
    rows: map<string, Row>, installationId: string, environment: Environment, paymentKey: string, now: Time)
    : map<string, Row>
  {
    map id | id in rows ::
      if OnPayment(rows[id].snap, installationId, environment, paymentKey) then Settle(rows[id], now) else rows[id]
  }

  /** Recording an external refund settles every request of its payment. */
  function ObserveExternalRefund(db: Db, installationId: string, refundId: string, a: Alert, now: Time): (o: Option<Db>)
    ensures o.Some? ==> SameTenant(db, o.value)
  {
    if a.createdAt > now || installationId !in db.installations
       || db.installations[installationId].environment == Live
       || a.environment != db.installations[installationId].environment then None
    else
      var key := (installationId, refundId);
      if key in db.alerts && db.alerts[key] != a then None
      else Some(db.(alerts := db.alerts[key := a],
                    rows := SettlePayment(db.rows, installationId, a.environment, a.paymentKey, now)))
  }

  predicate HasUnresolvedAlert(alerts: map<(string, string), Alert>, installationId: string, s: Snapshot) {
    exists k | k in alerts ::
      k.0 == installationId && alerts[k].environment == s.environment && alerts[k].paymentKey == s.paymentKey
  }

  function ReplayAlert(environment: Environment, c: Candidate): Alert {
    Alert(environment, c.tuple.createdAt, c.tuple.paymentKey, c.tuple.amountMinor, c.tuple.currency, ProofReplay)
  }

  /** `listing` enumerates the candidates other than the linked one. */
  predicate ListsOthers(candidates: map<string, Candidate>, linked: string, listing: seq<string>) {
    && (forall i | 0 <= i < |listing| :: listing[i] in candidates && listing[i] != linked)
    && (forall id | id in candidates :: id == linked || id in listing)
  }

  /** Every other candidate of a freshly linked request is a proof replay. */
  function RaiseReplays(
    db: Db, installationId: string, environment: Environment, candidates: map<string, Candidate>, listing: seq<string>,
    now: Time): (o: Option<Db>)
    ensures o.Some? ==> SameTenant(db, o.value)
    decreases |listing|
  {
    if listing == [] then Some(db)
    else if listing[0] !in candidates then None
    else
      match ObserveExternalRefund(db, installationId, listing[0], ReplayAlert(environment, candidates[listing[0]]), now)
      case None => None
      case Some(next) => RaiseReplays(next, installationId, environment, candidates, listing[1..], now)
  }

  // ------------------------------------------------------- worker outcomes

  /** Finishing the attempt, then raising the replays, on a linked row. */
  function AnswerSettled(db: Db, id: string, attempt: nat, others: seq<string>, now: Time): (o: Option<Db>)
    requires id in db.rows
    ensures o.Some? ==> SameTenant(db, o.value)
  {
    match FinishExecutionAttempt(db.rows[id], attempt, Completed)
    case None => None
    case Some(r') =>
      RaiseReplays(SetRow(db, id, r'), r'.snap.installationId, r'.snap.environment, r'.candidates, others, now)
  }

  /** Recording Stripe's synchronous answer. `others` lists the other candidates. */
  function RecordIdentifiedRefund(
    db: Db, id: string, attempt: nat, key: string, refundId: string, status: Option<RefundStatus>, responseMatches: bool,
    others: seq<string>, now: Time): (o: Option<Db>)
    ensures o.Some? ==> SameTenant(db, o.value)
  {
    if id !in db.rows || db.rows[id].execution.None? || db.rows[id].execution.value.key != key then None
    else
      match IdentifyAndLink(db.rows[id], refundId, if responseMatches then status else None, now)
      case None => None
      case Some(linked) =>
        if !ListsOthers(linked.candidates, refundId, others) then None
        else AnswerSettled(SetRow(db, id, linked), id, attempt, others, now)
  }

  predicate IsOutcome(tx: RowTx) {
    tx.TxRetryable? || tx.TxAmbiguous? || tx.TxTerminalAttempt? || tx.TxTerminal? || tx.TxDivert?
  }

  /** The failure outcomes touch only the request's own row. */
  function RecordOutcome(db: Db, id: string, tx: RowTx): Option<Db>
    requires IsOutcome(tx)
  {
    if id !in db.rows then None
    else match Try(db.rows[id], tx) case None => None case Some(r') => Some(SetRow(db, id, r'))
  }

  /** Recovery diverts an orphaned possible effect. */
  function RecoverOrphan(db: Db, id: string, now: Time): Db {
    if id in db.rows && HasActivePilotExecutionContext(db, db.rows[id].snap)
       && db.rows[id].status == Executing && db.rows[id].effect == Possible
    then SetRow(db, id, Diverted(db.rows[id], now)) else db
  }

  // ------------------------------------------------------- observations

  /** A sighting from a webhook or a scan page. */
  function ObserveRefund(db: Db, installationId: string, o: Sighting, others: seq<string>, now: Time): (out: Option<Db>)
    ensures out.Some? ==> SameTenant(db, out.value)
  {
    if || o.environment == Live
       || installationId !in db.installations
       || db.installations[installationId].environment != o.environment
       || !db.installations[installationId].active || !db.tenantActive || db.liveEnabled then None
    else
      var account := db.installations[installationId].stripeAccountId;
      if o.metadataRequestId.None? || o.metadataRequestId.value !in db.rows then
        RaiseAlert(db, installationId, o, Some(if o.metadataRequestId.None? then External else Tampered), now)
      else
        var id := o.metadataRequestId.value;
        match Observe(db.rows[id], account, o, now)
        case None => None
        case Some(out) => FollowUps(SetRow(db, id, out.row), id, installationId, o, out.alert, out.replaysOthers, others, now)
  }

  /** What follows the write of the sighted request's own row. */
  function FollowUps(
    db: Db, id: string, installationId: string, o: Sighting, alert: Option<Classification>, replays: bool,
    others: seq<string>, now: Time): (out: Option<Db>)
    requires id in db.rows
    ensures out.Some? ==> SameTenant(db, out.value)
  {
    if replays && !ListsOthers(db.rows[id].candidates, o.refundId, others) then None
    else
      match RaiseReplays(db, installationId, o.environment, db.rows[id].candidates, if replays then others else [], now)
      case None => None
      case Some(db') => RaiseAlert(db', installationId, o, alert, now)
  }

  function RaiseAlert(db: Db, installationId: string, o: Sighting, c: Option<Classification>, now: Time): (out: Option<Db>)
    ensures out.Some? ==> SameTenant(db, out.value)
  {
    if c.None? then Some(db)
    else ObserveExternalRefund(
        db, installationId, o.refundId,
        Alert(o.environment, o.tuple.createdAt, o.tuple.paymentKey, o.tuple.amountMinor, o.tuple.currency, c.value), now)
  }

  function ObserveLinkedRefund(
    db: Db, id: string, installationId: string, refundId: string, environment: Environment, t: RefundTuple,
    status: Option<RefundStatus>, now: Time): Option<Db>
  {
    if id !in db.rows || !HasActivePilotExecutionContext(db, db.rows[id].snap)
       || db.rows[id].snap.installationId != installationId then None
    else match Refresh(db.rows[id], refundId, environment, t, status, now)
         case None => None
         case Some(r') => Some(SetRow(db, id, r'))
  }

  /** What one committed scan knows when it resolves its requests: `first` gives
      each request's first-listed candidate. */
  datatype CompletedScan = CompletedScan(
    installationId: string, first: map<string, string>, windowStart: Time, windowEnd: Time, now: Time)

  predicate Selected(r: Row, scan: CompletedScan) {
    SelectedByScan(r, scan.installationId, scan.windowStart, scan.windowEnd)
  }

  function FirstListed(scan: CompletedScan, id: string): string {
    if id in scan.first then scan.first[id] else "re_missing"
  }

  function ResolveIn(r: Row, alerts: map<(string, string), Alert>, id: string, scan: CompletedScan): Option<Row> {
    ResolveByScan(r, HasUnresolvedAlert(alerts, scan.installationId, r.snap), FirstListed(scan, id),
                  scan.windowStart, scan.windowEnd, scan.now)
  }

  /** What a committed scan does to the requests it selects. */
  function ResolveAll(db: Db, scan: CompletedScan): Option<Db> {
    if exists id | id in db.rows :: Selected(db.rows[id], scan) && ResolveIn(db.rows[id], db.alerts, id, scan).None? then None
    else Some(db.(rows := map id | id in db.rows ::
                    if Selected(db.rows[id], scan) && ResolveIn(db.rows[id], db.alerts, id, scan).Some?
                    then ResolveIn(db.rows[id], db.alerts, id, scan).value else db.rows[id]))
  }

  // ------------------------------------------------------- lifecycle

  predicate DeauthorizationApplies(i: Installation, eventId: string, createdAt: Time) {
    match i.lastLifecycle
    case None => true
    case Some(last) =>
      || createdAt > last.createdAt
      || (createdAt == last.createdAt && (last.eventId == eventId || last.kind == Authorized))
  }

  function ApplyWebhookDeauthorization(db: Db, installationId: string, eventId: string, createdAt: Time): Option<Db> {
    if installationId !in db.installations || db.installations[installationId].environment == Live
       || !DeauthorizationApplies(db.installations[installationId], eventId, createdAt) then None
    else
      var i := db.installations[installationId];
      Some(db.(
        installations := db.installations[installationId := i.(active := false, lastLifecycle := Some(Lifecycle(eventId, Deauthorized, createdAt)))],
        tenantActive := false,
        rows := map id | id in db.rows :: Settle(db.rows[id], createdAt)))
  }

  // ------------------------------------------------------- web mutations

  predicate GuardHeld(db: Db, environment: Environment, paymentKey: string) {
    exists id | id in db.rows ::
      db.rows[id].snap.environment == environment && db.rows[id].snap.paymentKey == paymentKey
      && db.rows[id].guardReleasedAt.None?
  }

  predicate HasDistinctApprover(db: Db, requesterUserId: string) {
    exists u | u in db.users :: db.users[u].approverEnabled && u != requesterUserId
  }

  function CreateRefundRequest(db: Db, snap: Snapshot): Option<Db> {
    if || !HasActivePilotExecutionContext(db, snap)
       || snap.requestId in db.rows
       || snap.requiredApprovals != 1
       || !HasDistinctApprover(db, snap.requesterUserId)
       || GuardHeld(db, snap.environment, snap.paymentKey)
       || HasUnresolvedAlert(db.alerts, snap.installationId, snap) then None
    else Some(SetRow(db, snap.requestId, NewRow(snap)))
  }

  /** Signing an attestation for a still pending request. */
  function PersistApprovalAttestation(
    db: Db, id: string, approverUserId: string, attestationId: string, input: AttestInput)
    : Option<(Db, AttestationRow)>
  {
    if id !in db.rows || approverUserId !in db.users || db.rows[id].snap.requesterUserId !in db.users
       || db.rows[id].snap.installationId !in db.installations then None
    else
      var r := db.rows[id];
      var i := db.installations[r.snap.installationId];
      var item := Item(r.snap, r.status, r.effect, r.version, r.execution, i.stripeAccountId,
                       db.users[r.snap.requesterUserId], db.users[approverUserId]);
      match PayloadToSign(item, i.active, db.tenantActive && !db.liveEnabled, i.environment, r.guardReleasedAt.Some?, 1, input)
      case None => None
      case Some(p) =>
        Some((db.(signed := db.signed + {p}),
              AttestationRow(attestationId, p.tenantId, p.installationId, p.requestId, p.approverUserId, p.requestNonce,
                             p.stripeAccountId, p.environment, p.resourceType, p.resourceId, p.requestVersion,
                             p.envelopeHash, p.verifiedAt, p.consumeBefore, p)))
  }

  /** Deciding as an enabled approver other than the requester. */
  function DecideRefundRequest(db: Db, id: string, actorId: string, kind: DecisionKind, attestation: Option<AttestationRow>, now: Time)
    : Option<Db>
  {
    if id !in db.rows || actorId !in db.users || !db.users[actorId].approverEnabled
       || db.rows[id].snap.requesterUserId == actorId || db.rows[id].status != PendingApproval then None
    else if kind == Reject then
      match Try(db.rows[id], TxReject(now)) case None => None case Some(r') => Some(SetRow(db, id, r'))
    else if attestation.None? then None
    else
      match ApproveRow(db.rows[id], Approval(Approve, actorId, now, Some(attestation.value.id), attestation))
      case None => None
      case Some(r') => Some(SetRow(db, id, r'))
  }

  function CancelRefundRequest(db: Db, id: string, actorId: string, now: Time): Option<Db> {
    if id !in db.rows || db.rows[id].snap.requesterUserId != actorId then None
    else match Try(db.rows[id], TxCancel(now)) case None => None case Some(r') => Some(SetRow(db, id, r'))
  }

  // ------------------------------------------------------- the step relation

  datatype Action =
    | CreateRequest(snap: Snapshot)
    | Attest(id: string, approverUserId: string, attestationId: string, input: AttestInput)
    | Decide(id: string, actorId: string, kind: DecisionKind, attestation: Option<AttestationRow>, now: Time)
    | Cancel(id: string, actorId: string, now: Time)
    | ExpireDue(id: string, now: Time)
    | Load(id: string, key: string, now: Time)
    | Boundary(id: string, key: string, now: Time)
    | Answer(id: string, attempt: nat, key: string, refundId: string, status: Option<RefundStatus>, responseMatches: bool, others: seq<string>, now: Time)
    | Outcome(id: string, tx: RowTx)
    | Recover(id: string, now: Time)
    | Sight(installationId: string, sighting: Sighting, others: seq<string>, now: Time)
    | RefreshLinked(id: string, installationId: string, refundId: string, environment: Environment, tuple: RefundTuple, status: Option<RefundStatus>, now: Time)
    | CommitScan(scan: CompletedScan)
    | Deauthorize(installationId: string, eventId: string, createdAt: Time)
    | Reauthorize(installationId: string, installation: Installation)
    | SetUser(userId: string, user: User)

  function OrSame(db: Db, o: Option<Db>): Db { match o case Some(db') => db' case None => db }

  function Step(db: Db, a: Action): Db {
    match a
    case CreateRequest(snap) => OrSame(db, CreateRefundRequest(db, snap))
    case Attest(id, approver, aid, input) =>
      (match PersistApprovalAttestation(db, id, approver, aid, input) case None => db case Some(p) => p.0)
    case Decide(id, actor, kind, attestation, now) => OrSame(db, DecideRefundRequest(db, id, actor, kind, attestation, now))
    case Cancel(id, actor, now) => OrSame(db, CancelRefundRequest(db, id, actor, now))
    case ExpireDue(id, now) => if id in db.rows then SetRow(db, id, Apply(db.rows[id], TxExpire(now))) else db
    case Load(id, key, now) => LoadRefundExecution(db, id, key, now)
    case Boundary(id, key, now) => PersistEffectBoundary(db, id, key, now).0
    case Answer(id, i, key, refund, status, matches, others, now) =>
      OrSame(db, RecordIdentifiedRefund(db, id, i, key, refund, status, matches, others, now))
    case Outcome(id, tx) =>
      if IsOutcome(tx) then OrSame(db, RecordOutcome(db, id, tx)) else db
    case Recover(id, now) => RecoverOrphan(db, id, now)
    case Sight(inst, o, others, now) => OrSame(db, ObserveRefund(db, inst, o, others, now))
    case RefreshLinked(id, inst, refund, environment, t, status, now) =>
      OrSame(db, ObserveLinkedRefund(db, id, inst, refund, environment, t, status, now))
    case CommitScan(scan) => OrSame(db, ResolveAll(db, scan))
    case Deauthorize(inst, eventId, createdAt) => OrSame(db, ApplyWebhookDeauthorization(db, inst, eventId, createdAt))
    case Reauthorize(inst, i) => db.(tenantActive := true, installations := db.installations[inst := i])
    case SetUser(id, user) => db.(users := db.users[id := user])
  }

  function RunAll(db: Db, actions: seq<Action>): Db {
    if actions == [] then db else Step(RunAll(db, actions[..|actions| - 1]), actions[|actions| - 1])
  }
}
