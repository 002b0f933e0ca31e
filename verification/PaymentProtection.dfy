/** External refunds protect their payment: over every interleaving no request
    is pending, approved or executing on a payment with an unresolved alert. The
    database enforces this with a trigger on every insert and update; the model
    checks it only at creation, and shows that no later update could violate it. */
module PaymentProtection {
  import opened Prelude
  import opened Domain
  import opened Observation
  import opened Execution
  import opened Attestation
  import opened RefundRow
  import opened RowInvariant
  import opened RowTheorems
  import opened Tenant
  import opened TenantTheorems

  predicate Active(s: WorkflowStatus) { s == PendingApproval || s == Approved || s == Executing }

  predicate Alerted(alerts: map<(string, string), Alert>, s: Snapshot) { HasUnresolvedAlert(alerts, s.installationId, s) }

  predicate Protected(db: Db) {
    forall id | id in db.rows && Alerted(db.alerts, db.rows[id].snap) :: !Active(db.rows[id].status)
  }

  // ------------------------------------------------------- single rows

  lemma IdentifyActivatesNothing(r: Row, input: Identification, now: Time)
    requires MarkRefundIdentified(r, input, now).Some? && Active(MarkRefundIdentified(r, input, now).value.status)
    ensures Active(r.status)
  {
  }

  lemma SightingActivatesNothing(r: Row, account: string, o: Sighting, now: Time)
    requires Observe(r, account, o, now).Some? && Active(Observe(r, account, o, now).value.row.status)
    ensures Active(r.status)
  {
    ObservationShape(r, account, o, now);
    if MarkRefundIdentified(r, IdentificationOf(o), now).Some? && Active(MarkRefundIdentified(r, IdentificationOf(o), now).value.status) {
      IdentifyActivatesNothing(r, IdentificationOf(o), now);
    }
  }

  lemma PlainTxActivatesNothing(r: Row, tx: RowTx)
    requires Sound(r) && Plain(tx) && Try(r, tx).Some? && Active(Try(r, tx).value.status)
    ensures Active(r.status)
  {
  }

  /** Only the resolution of a scan can put a request back to execution. */
  lemma TxActivatesNothing(r: Row, tx: RowTx)
    requires Sound(r) && !tx.TxResolve? && Active(Apply(r, tx).status)
    ensures Active(r.status)
  {
    if Try(r, tx).Some? {
      match tx
      case TxObserve(account, o, now) => SightingActivatesNothing(r, account, o, now);
      case TxIdentified(i, id, status, now) => IdentifyActivatesNothing(r, Identification(id, status, false, None), now);
      case TxRefresh(id, _, _, status, now) =>
        IdentifyActivatesNothing(r, Identification(id, status, status.Some? && !Unsettled(status), None), now);
      case _ => PlainTxActivatesNothing(r, tx);
    }
  }

  // ------------------------------------------------------- single steps

  predicate Guarded(db: Db) { RowsSound(db) && Protected(db) }

  /** A sound row of the same request that is active only if it was before. */
  predicate Moves(r: Row, r': Row) { Sound(r') && r'.snap == r.snap && (Active(r'.status) ==> Active(r.status)) }

  lemma TxMoves(r: Row, tx: RowTx)
    requires Sound(r) && !tx.TxResolve?
    ensures Moves(r, Apply(r, tx))
  {
    TxKeepsSound(r, tx);
    if Active(Apply(r, tx).status) {
      TxActivatesNothing(r, tx);
    }
  }

  lemma AnswerActivatesNothing(r: Row, i: nat, refund: string, status: Option<RefundStatus>, now: Time)
    requires RecordIdentified(r, i, refund, status, now).Some? && Active(RecordIdentified(r, i, refund, status, now).value.status)
    ensures Active(r.status)
  {
    IdentifyActivatesNothing(r, Identification(refund, status, false, None), now);
  }

  lemma AnswerMoves(r: Row, i: nat, refund: string, status: Option<RefundStatus>, now: Time)
    requires Sound(r) && RecordIdentified(r, i, refund, status, now).Some?
    ensures Moves(r, RecordIdentified(r, i, refund, status, now).value)
  {
    AnswerKeepsSound(r, i, refund, status, now);
    if Active(RecordIdentified(r, i, refund, status, now).value.status) {
      AnswerActivatesNothing(r, i, refund, status, now);
    }
  }

  lemma SightingMoves(r: Row, account: string, o: Sighting, now: Time)
    requires Sound(r) && Observe(r, account, o, now).Some?
    ensures Moves(r, Observe(r, account, o, now).value.row)
  {
    ObserveKeepsSound(r, account, o, now);
    if Active(Observe(r, account, o, now).value.row.status) {
      SightingActivatesNothing(r, account, o, now);
    }
  }

  lemma ClaimMoves(r: Row, now: Time)
    requires Sound(r) && ClaimExecution(r, now).Some?
    ensures Moves(r, ClaimExecution(r, now).value)
  {
    TxMoves(r, TxClaim(now));
  }

  lemma DiversionMoves(r: Row, now: Time)
    requires Sound(r)
    ensures Moves(r, Diverted(r, now))
  {
    TxMoves(r, TxDivert(now));
  }

  lemma CrossingMoves(r: Row, account: string, key: string)
    requires Sound(r) && CrossBoundary(r, account, key).Some?
    ensures Moves(r, CrossBoundary(r, account, key).value)
  {
    TxMoves(r, TxCross(account, key, 0));
  }

  lemma SetRowKeepsGuarded(db: Db, id: string, r': Row)
    requires Guarded(db) && id in db.rows && Moves(db.rows[id], r')
    ensures Guarded(SetRow(db, id, r'))
  {
  }

  lemma RowMoveKeepsGuarded(db: Db, id: string, tx: RowTx)
    requires Guarded(db) && id in db.rows && !tx.TxResolve?
    ensures Guarded(SetRow(db, id, Apply(db.rows[id], tx)))
  {
    TxMoves(db.rows[id], tx);
    SetRowKeepsGuarded(db, id, Apply(db.rows[id], tx));
  }

  lemma SettledRowIsInactive(r: Row, now: Time)
    requires Sound(r)
    ensures Sound(Settle(r, now)) && !Active(Settle(r, now).status)
  {
    TxKeepsSound(r, TxSettle(now));
    SettledRowIsNotExecutable(r, now);
  }

  lemma ForeignAlert(alerts: map<(string, string), Alert>, key: (string, string), a: Alert, s: Snapshot)
    requires !OnPayment(s, key.0, a.environment, a.paymentKey) && (key in alerts ==> alerts[key] == a)
    ensures Alerted(alerts[key := a], s) ==> Alerted(alerts, s)
  {
  }

  /** A new alert and the settlement of its payment, in one transaction. */
  lemma AlertKeepsGuarded(db: Db, inst: string, refundId: string, a: Alert, now: Time)
    requires Guarded(db) && ObserveExternalRefund(db, inst, refundId, a, now).Some?
    ensures Guarded(ObserveExternalRefund(db, inst, refundId, a, now).value)
  {
    var db' := ObserveExternalRefund(db, inst, refundId, a, now).value;
    forall id | id in db.rows
      ensures Sound(db'.rows[id]) && (Alerted(db'.alerts, db'.rows[id].snap) ==> !Active(db'.rows[id].status))
    {
      AlertKeepsRow(db, id, inst, refundId, a, now);
    }
  }

  lemma AlertKeepsRow(db: Db, id: string, inst: string, refundId: string, a: Alert, now: Time)
    requires Guarded(db) && id in db.rows && ((inst, refundId) in db.alerts ==> db.alerts[(inst, refundId)] == a)
    ensures var r := db.rows[id];
            var r' := if OnPayment(r.snap, inst, a.environment, a.paymentKey) then Settle(r, now) else r;
            Sound(r') && (Alerted(db.alerts[(inst, refundId) := a], r'.snap) ==> !Active(r'.status))
  {
    var r := db.rows[id];
    if OnPayment(r.snap, inst, a.environment, a.paymentKey) {
      SettledRowIsInactive(r, now);
    } else {
      ForeignAlert(db.alerts, (inst, refundId), a, r.snap);
    }
  }

  lemma {:induction false} ReplaysKeepGuarded(
    db: Db, inst: string, environment: Environment, candidates: map<string, Candidate>, listing: seq<string>, now: Time)
    requires Guarded(db) && RaiseReplays(db, inst, environment, candidates, listing, now).Some?
    ensures Guarded(RaiseReplays(db, inst, environment, candidates, listing, now).value)
    decreases |listing|
  {
    if listing != [] {
      var a := ReplayAlert(environment, candidates[listing[0]]);
      AlertKeepsGuarded(db, inst, listing[0], a, now);
      var next := ObserveExternalRefund(db, inst, listing[0], a, now).value;
      ReplaysKeepGuarded(next, inst, environment, candidates, listing[1..], now);
    }
  }

  lemma AnswerKeepsGuarded(
    db: Db, id: string, i: nat, key: string, refund: string, status: Option<RefundStatus>, ok: bool, others: seq<string>, now: Time)
    requires Guarded(db) && RecordIdentifiedRefund(db, id, i, key, refund, status, ok, others, now).Some?
    ensures Guarded(RecordIdentifiedRefund(db, id, i, key, refund, status, ok, others, now).value)
  {
    AnswerShape(db, id, i, key, refund, status, ok, others, now);
    var st := if ok then status else None;
    var r' := RecordIdentified(db.rows[id], i, refund, st, now).value;
    AnswerMoves(db.rows[id], i, refund, st, now);
    SetRowKeepsGuarded(db, id, r');
    ReplaysKeepGuarded(SetRow(db, id, r'), r'.snap.installationId, r'.snap.environment, r'.candidates, others, now);
  }

  lemma RaisedAlertKeepsGuarded(db: Db, inst: string, o: Sighting, c: Option<Classification>, now: Time)
    requires Guarded(db) && RaiseAlert(db, inst, o, c, now).Some?
    ensures Guarded(RaiseAlert(db, inst, o, c, now).value)
  {
    if c.Some? {
      AlertKeepsGuarded(
        db, inst, o.refundId,
        Alert(o.environment, o.tuple.createdAt, o.tuple.paymentKey, o.tuple.amountMinor, o.tuple.currency, c.value), now);
    }
  }

  lemma FollowUpsKeepGuarded(
    db: Db, id: string, inst: string, o: Sighting, alert: Option<Classification>, replays: bool, others: seq<string>, now: Time)
    requires Guarded(db) && id in db.rows && FollowUps(db, id, inst, o, alert, replays, others, now).Some?
    ensures Guarded(FollowUps(db, id, inst, o, alert, replays, others, now).value)
  {
    var listing := if replays then others else [];
    ReplaysKeepGuarded(db, inst, o.environment, db.rows[id].candidates, listing, now);
    var db' := RaiseReplays(db, inst, o.environment, db.rows[id].candidates, listing, now).value;
    RaisedAlertKeepsGuarded(db', inst, o, alert, now);
  }

  lemma SightKeepsGuarded(db: Db, inst: string, o: Sighting, others: seq<string>, now: Time)
    requires Guarded(db) && ObserveRefund(db, inst, o, others, now).Some?
    ensures Guarded(ObserveRefund(db, inst, o, others, now).value)
  {
    if o.metadataRequestId.None? || o.metadataRequestId.value !in db.rows {
      RaisedAlertKeepsGuarded(db, inst, o, Some(if o.metadataRequestId.None? then External else Tampered), now);
    } else {
      var id := o.metadataRequestId.value;
      var account := db.installations[inst].stripeAccountId;
      var out := Observe(db.rows[id], account, o, now).value;
      SightingMoves(db.rows[id], account, o, now);
      SetRowKeepsGuarded(db, id, out.row);
      FollowUpsKeepGuarded(SetRow(db, id, out.row), id, inst, o, out.alert, out.replaysOthers, others, now);
    }
  }

  /** A request without candidates is selected by its own installation's scan. */
  lemma EmptyRowIsSelectedAtHome(r: Row, scan: CompletedScan)
    requires Selected(r, scan) && r.candidates == map[]
    ensures r.snap.installationId == scan.installationId
  {
  }

  /** A scan resumes only requests whose payment has no unresolved alert. */
  lemma ScanRowKeepsGuarded(db: Db, id: string, scan: CompletedScan)
    requires Guarded(db) && id in db.rows && Selected(db.rows[id], scan)
    requires ResolveIn(db.rows[id], db.alerts, id, scan).Some?
    ensures var r' := ResolveIn(db.rows[id], db.alerts, id, scan).value;
            Sound(r') && r'.snap == db.rows[id].snap && (Alerted(db.alerts, r'.snap) ==> !Active(r'.status))
  {
    var r := db.rows[id];
    var alert := HasUnresolvedAlert(db.alerts, scan.installationId, r.snap);
    ResolutionMoves(r, alert, FirstListed(scan, id), scan.windowStart, scan.windowEnd, scan.now);
    if r.candidates == map[] {
      EmptyRowIsSelectedAtHome(r, scan);
    }
  }

  lemma ResolutionMoves(r: Row, alert: bool, first: string, ws: Time, we: Time, now: Time)
    requires Sound(r) && ResolveByScan(r, alert, first, ws, we, now).Some?
    ensures var r' := ResolveByScan(r, alert, first, ws, we, now).value;
            && Sound(r') && r'.snap == r.snap
            && (Active(r'.status) ==> Active(r.status) || (!alert && r.candidates == map[]))
  {
    ResolveKeepsSound(r, alert, first, ws, we, now);
    if Active(ResolveByScan(r, alert, first, ws, we, now).value.status) {
      ResolutionActivates(r, alert, first, ws, we, now);
    }
  }

  lemma ResolutionActivates(r: Row, alert: bool, first: string, ws: Time, we: Time, now: Time)
    requires ResolveByScan(r, alert, first, ws, we, now).Some? && Active(ResolveByScan(r, alert, first, ws, we, now).value.status)
    ensures Active(r.status) || (!alert && r.candidates == map[])
  {
    ResolutionShape(r, alert, first, ws, we, now);
    if first in r.candidates && MarkRefundIdentified(r, ScanIdentification(r, first, alert), now).Some?
       && Active(MarkRefundIdentified(r, ScanIdentification(r, first, alert), now).value.status) {
      IdentifyActivatesNothing(r, ScanIdentification(r, first, alert), now);
    }
  }

  lemma ScanKeepsGuarded(db: Db, scan: CompletedScan)
    requires Guarded(db) && ResolveAll(db, scan).Some?
    ensures Guarded(ResolveAll(db, scan).value)
  {
    var db' := ResolveAll(db, scan).value;
    forall id | id in db.rows
      ensures Sound(db'.rows[id]) && (Alerted(db'.alerts, db'.rows[id].snap) ==> !Active(db'.rows[id].status))
    {
      if Selected(db.rows[id], scan) {
        ScanRowKeepsGuarded(db, id, scan);
      }
    }
  }

  lemma DeauthorizationKeepsGuarded(db: Db, inst: string, eventId: string, createdAt: Time)
    requires Guarded(db) && ApplyWebhookDeauthorization(db, inst, eventId, createdAt).Some?
    ensures Guarded(ApplyWebhookDeauthorization(db, inst, eventId, createdAt).value)
  {
    forall id | id in db.rows
      ensures Sound(Settle(db.rows[id], createdAt)) && !Active(Settle(db.rows[id], createdAt).status)
    {
      SettledRowIsInactive(db.rows[id], createdAt);
    }
  }

  lemma BoundaryKeepsGuarded(db: Db, id: string, key: string, now: Time)
    requires Guarded(db)
    ensures Guarded(PersistEffectBoundary(db, id, key, now).0)
  {
    BoundaryShape(db, id, key, now);
    var db' := PersistEffectBoundary(db, id, key, now).0;
    if id in db.rows && db' == SetRow(db, id, Diverted(db.rows[id], now)) {
      DivertedKeepsGuarded(db, id, now);
    } else if id in db.rows && id in db'.rows && Crosses(db, id, key, db'.rows[id]) {
      CrossingMoves(db.rows[id], db.installations[db.rows[id].snap.installationId].stripeAccountId, key);
      SetRowKeepsGuarded(db, id, db'.rows[id]);
    }
  }

  lemma DivertedKeepsGuarded(db: Db, id: string, now: Time)
    requires Guarded(db) && id in db.rows
    ensures Guarded(SetRow(db, id, Diverted(db.rows[id], now)))
  {
    DiversionMoves(db.rows[id], now);
    SetRowKeepsGuarded(db, id, Diverted(db.rows[id], now));
  }

  lemma LoadKeepsGuarded(db: Db, id: string, key: string, now: Time)
    requires Guarded(db)
    ensures Guarded(LoadRefundExecution(db, id, key, now))
  {
    LoadShape(db, id, key, now);
    var db' := LoadRefundExecution(db, id, key, now);
    if db'.rows != db.rows {
      if db' == SetRow(db, id, Diverted(db.rows[id], now)) {
        DivertedKeepsGuarded(db, id, now);
      } else {
        ClaimMoves(db.rows[id], now);
        SetRowKeepsGuarded(db, id, ClaimExecution(db.rows[id], now).value);
      }
    }
  }

  lemma CreationKeepsGuarded(db: Db, snap: Snapshot)
    requires Guarded(db) && CreateRefundRequest(db, snap).Some?
    ensures Guarded(CreateRefundRequest(db, snap).value)
  {
  }

  lemma DecisionKeepsGuarded(db: Db, id: string, actor: string, kind: DecisionKind, at: Option<AttestationRow>, now: Time)
    requires Guarded(db) && DecideRefundRequest(db, id, actor, kind, at, now).Some?
    ensures Guarded(DecideRefundRequest(db, id, actor, kind, at, now).value)
  {
    if kind == Reject {
      RowMoveKeepsGuarded(db, id, TxReject(now));
    } else {
      RowMoveKeepsGuarded(db, id, TxApprove(Approval(Approve, actor, now, Some(at.value.id), at)));
    }
  }

  lemma RefreshKeepsGuarded(
    db: Db, id: string, inst: string, refund: string, environment: Environment, t: RefundTuple, status: Option<RefundStatus>, now: Time)
    requires Guarded(db) && ObserveLinkedRefund(db, id, inst, refund, environment, t, status, now).Some?
    ensures Guarded(ObserveLinkedRefund(db, id, inst, refund, environment, t, status, now).value)
  {
    RefreshMoves(db.rows[id], refund, environment, t, status, now);
    SetRowKeepsGuarded(db, id, Refresh(db.rows[id], refund, environment, t, status, now).value);
  }

  lemma RefreshMoves(r: Row, refund: string, environment: Environment, t: RefundTuple, status: Option<RefundStatus>, now: Time)
    requires Sound(r) && Refresh(r, refund, environment, t, status, now).Some?
    ensures Moves(r, Refresh(r, refund, environment, t, status, now).value)
  {
    TxMoves(r, TxRefresh(refund, environment, t, status, now));
  }

  lemma OutcomeKeepsGuarded(db: Db, id: string, tx: RowTx)
    requires Guarded(db) && IsOutcome(tx) && RecordOutcome(db, id, tx).Some?
    ensures Guarded(RecordOutcome(db, id, tx).value)
  {
    RowMoveKeepsGuarded(db, id, tx);
  }

  lemma CancellationKeepsGuarded(db: Db, id: string, actor: string, now: Time)
    requires Guarded(db) && CancelRefundRequest(db, id, actor, now).Some?
    ensures Guarded(CancelRefundRequest(db, id, actor, now).value)
  {
    RowMoveKeepsGuarded(db, id, TxCancel(now));
  }

  lemma WebStepKeepsGuarded(db: Db, a: Action)
    requires Guarded(db) && (a.CreateRequest? || a.Attest? || a.Decide? || a.Cancel? || a.ExpireDue? || a.Reauthorize? || a.SetUser?)
    ensures Guarded(Step(db, a))
  {
    match a
    case CreateRequest(snap) => if CreateRefundRequest(db, snap).Some? { CreationKeepsGuarded(db, snap); }
    case Decide(id, actor, kind, at, now) =>
      if DecideRefundRequest(db, id, actor, kind, at, now).Some? { DecisionKeepsGuarded(db, id, actor, kind, at, now); }
    case Cancel(id, actor, now) => if CancelRefundRequest(db, id, actor, now).Some? { CancellationKeepsGuarded(db, id, actor, now); }
    case ExpireDue(id, now) => if id in db.rows { RowMoveKeepsGuarded(db, id, TxExpire(now)); }
    case _ =>
  }

  lemma RecoverKeepsGuarded(db: Db, id: string, now: Time)
    requires Guarded(db)
    ensures Guarded(RecoverOrphan(db, id, now))
  {
    if id in db.rows {
      DivertedKeepsGuarded(db, id, now);
    }
  }

  lemma DeauthorizeStepKeepsGuarded(db: Db, inst: string, eventId: string, createdAt: Time)
    requires Guarded(db)
    ensures Guarded(OrSame(db, ApplyWebhookDeauthorization(db, inst, eventId, createdAt)))
  {
    if ApplyWebhookDeauthorization(db, inst, eventId, createdAt).Some? {
      DeauthorizationKeepsGuarded(db, inst, eventId, createdAt);
    }
  }

  lemma SightStepKeepsGuarded(db: Db, inst: string, o: Sighting, others: seq<string>, now: Time)
    requires Guarded(db)
    ensures Guarded(OrSame(db, ObserveRefund(db, inst, o, others, now)))
  {
    if ObserveRefund(db, inst, o, others, now).Some? {
      SightKeepsGuarded(db, inst, o, others, now);
    }
  }

  lemma RefreshStepKeepsGuarded(
    db: Db, id: string, inst: string, refund: string, environment: Environment, t: RefundTuple, status: Option<RefundStatus>, now: Time)
    requires Guarded(db)
    ensures Guarded(OrSame(db, ObserveLinkedRefund(db, id, inst, refund, environment, t, status, now)))
  {
    if ObserveLinkedRefund(db, id, inst, refund, environment, t, status, now).Some? {
      RefreshKeepsGuarded(db, id, inst, refund, environment, t, status, now);
    }
  }

  lemma ScanStepKeepsGuarded(db: Db, scan: CompletedScan)
    requires Guarded(db)
    ensures Guarded(OrSame(db, ResolveAll(db, scan)))
  {
    if ResolveAll(db, scan).Some? {
      ScanKeepsGuarded(db, scan);
    }
  }

  lemma AnswerStepKeepsGuarded(
    db: Db, id: string, i: nat, key: string, refund: string, status: Option<RefundStatus>, ok: bool, others: seq<string>, now: Time)
    requires Guarded(db)
    ensures Guarded(OrSame(db, RecordIdentifiedRefund(db, id, i, key, refund, status, ok, others, now)))
  {
    if RecordIdentifiedRefund(db, id, i, key, refund, status, ok, others, now).Some? {
      AnswerKeepsGuarded(db, id, i, key, refund, status, ok, others, now);
    }
  }

  lemma OutcomeStepKeepsGuarded(db: Db, id: string, tx: RowTx)
    requires Guarded(db) && IsOutcome(tx)
    ensures Guarded(OrSame(db, RecordOutcome(db, id, tx)))
  {
    if RecordOutcome(db, id, tx).Some? {
      OutcomeKeepsGuarded(db, id, tx);
    }
  }

  lemma StepKeepsGuarded(db: Db, a: Action)
    requires Guarded(db)
    ensures Guarded(Step(db, a))
  {
    match a
    case Answer(id, i, key, refund, status, ok, others, now) => AnswerStepKeepsGuarded(db, id, i, key, refund, status, ok, others, now);
    case Outcome(id, tx) => if IsOutcome(tx) { OutcomeStepKeepsGuarded(db, id, tx); }
    case Sight(inst, o, others, now) => SightStepKeepsGuarded(db, inst, o, others, now);
    case RefreshLinked(id, inst, refund, environment, t, status, now) =>
      RefreshStepKeepsGuarded(db, id, inst, refund, environment, t, status, now);
    case CommitScan(scan) => ScanStepKeepsGuarded(db, scan);
    case Load(id, key, now) => LoadKeepsGuarded(db, id, key, now);
    case Boundary(id, key, now) => BoundaryKeepsGuarded(db, id, key, now);
    case Recover(id, now) => RecoverKeepsGuarded(db, id, now);
    case Deauthorize(inst, eventId, createdAt) => DeauthorizeStepKeepsGuarded(db, inst, eventId, createdAt);
    case _ => WebStepKeepsGuarded(db, a);
  }

  /** Over every interleaving of every actor, from a tenant without requests, no
      request is pending, approved or executing on a payment of which an external,
      tampered or replayed refund is on record. */
  lemma {:induction false} EveryRunProtectsPayments(db: Db, actions: seq<Action>)
    requires db.rows == map[]
    ensures RowsSound(RunAll(db, actions)) && Protected(RunAll(db, actions))
  {
    if actions != [] {
      EveryRunProtectsPayments(db, actions[..|actions| - 1]);
      StepKeepsGuarded(RunAll(db, actions[..|actions| - 1]), actions[|actions| - 1]);
    }
  }

  /** In particular the worker is never told to execute on such a payment. */
  lemma NoEffectOnProtectedPayment(db: Db, actions: seq<Action>, id: string, key: string, now: Time)
    requires db.rows == map[] && PersistEffectBoundary(RunAll(db, actions), id, key, now).1.Execute?
    ensures id in RunAll(db, actions).rows && !Alerted(RunAll(db, actions).alerts, RunAll(db, actions).rows[id].snap)
  {
    EveryRunProtectsPayments(db, actions);
    ExecuteNeedsExecuting(RunAll(db, actions), id, key, now);
  }

  lemma ExecuteNeedsExecuting(db: Db, id: string, key: string, now: Time)
    requires PersistEffectBoundary(db, id, key, now).1.Execute?
    ensures id in db.rows && db.rows[id].status == Executing
  {
  }
}
