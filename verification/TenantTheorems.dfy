/** Theorems over every interleaving of every actor of a tenant: one held guard
    a payment, the deauthorization barrier and four-eyes at the boundary. */
module TenantTheorems {
  import opened Prelude
  import opened Domain
  import opened Observation
  import opened Execution
  import opened Attestation
  import opened RefundRow
  import opened RowInvariant
  import opened RowTheorems
  import opened VersionAccounting
  import opened Tenant

  // ------------------------------------------- lifting row theorems to tenants

  /** Neither a boundary crossing nor an approval. */
  predicate Quiet(txs: seq<RowTx>) { forall i | 0 <= i < |txs| :: !txs[i].TxCross? && !txs[i].TxApprove? }

  /** Row transactions other than crossings and approvals lead to the other row. */
  ghost predicate Reaches(r: Row, r': Row) { exists txs: seq<RowTx> :: Quiet(txs) && r' == Run(r, txs) }

  lemma {:induction false} RunConcat(r: Row, a: seq<RowTx>, b: seq<RowTx>)
    ensures Run(r, a + b) == Run(Run(r, a), b)
  {
    if b == [] {
      assert a + b == a;
    } else {
      RunConcat(r, a, b[..|b| - 1]);
      assert (a + b)[..|a + b| - 1] == a + b[..|b| - 1];
    }
  }

  lemma ReachesItself(r: Row)
    ensures Reaches(r, r)
  {
    assert Quiet([]) && r == Run(r, []);
  }

  lemma ReachesByTx(r: Row, tx: RowTx)
    requires !tx.TxCross? && !tx.TxApprove?
    ensures Reaches(r, Apply(r, tx))
  {
    assert [tx][..0] == [];
    assert Quiet([tx]) && Apply(r, tx) == Run(r, [tx]);
  }

  lemma ReachesTransitive(a: Row, b: Row, c: Row)
    requires Reaches(a, b) && Reaches(b, c)
    ensures Reaches(a, c)
  {
    var s :| Quiet(s) && b == Run(a, s);
    var t :| Quiet(t) && c == Run(b, t);
    RunConcat(a, s, t);
    assert Quiet(s + t);
  }

  /** The same requests, each moved by quiet row transactions. */
  ghost predicate Evolves(db: Db, db': Db) {
    && db'.rows.Keys == db.rows.Keys
    && forall id | id in db.rows :: Reaches(db.rows[id], db'.rows[id])
  }

  lemma EvolvesTransitive(a: Db, b: Db, c: Db)
    requires Evolves(a, b) && Evolves(b, c)
    ensures Evolves(a, c)
  {
    forall id | id in a.rows
      ensures Reaches(a.rows[id], c.rows[id])
    {
      ReachesTransitive(a.rows[id], b.rows[id], c.rows[id]);
    }
  }

  lemma SetRowEvolves(db: Db, id: string, r': Row)
    requires id in db.rows && Reaches(db.rows[id], r')
    ensures Evolves(db, SetRow(db, id, r'))
  {
    forall i | i in db.rows
      ensures Reaches(db.rows[i], SetRow(db, id, r').rows[i])
    {
      ReachesItself(db.rows[i]);
    }
  }

  lemma SameRowsEvolve(db: Db, db': Db)
    requires db'.rows == db.rows
    ensures Evolves(db, db')
  {
    forall i | i in db.rows
      ensures Reaches(db.rows[i], db'.rows[i])
    {
      ReachesItself(db.rows[i]);
    }
  }

  lemma TxEvolves(db: Db, id: string, tx: RowTx)
    requires id in db.rows && !tx.TxCross? && !tx.TxApprove?
    ensures Evolves(db, SetRow(db, id, Apply(db.rows[id], tx)))
  {
    ReachesByTx(db.rows[id], tx);
    SetRowEvolves(db, id, Apply(db.rows[id], tx));
  }

  lemma ExternalEvolves(db: Db, inst: string, refundId: string, a: Alert, now: Time)
    requires ObserveExternalRefund(db, inst, refundId, a, now).Some?
    ensures Evolves(db, ObserveExternalRefund(db, inst, refundId, a, now).value)
  {
    var db' := ObserveExternalRefund(db, inst, refundId, a, now).value;
    forall id | id in db.rows
      ensures Reaches(db.rows[id], db'.rows[id])
    {
      ReachesItself(db.rows[id]);
      ReachesByTx(db.rows[id], TxSettle(now));
    }
  }

  lemma {:induction false} ReplaysEvolve(
    db: Db, inst: string, environment: Environment, candidates: map<string, Candidate>, listing: seq<string>, now: Time)
    requires RaiseReplays(db, inst, environment, candidates, listing, now).Some?
    ensures Evolves(db, RaiseReplays(db, inst, environment, candidates, listing, now).value)
    decreases |listing|
  {
    SameRowsEvolve(db, db);
    if listing != [] {
      var a := ReplayAlert(environment, candidates[listing[0]]);
      ExternalEvolves(db, inst, listing[0], a, now);
      var next := ObserveExternalRefund(db, inst, listing[0], a, now).value;
      ReplaysEvolve(next, inst, environment, candidates, listing[1..], now);
      EvolvesTransitive(db, next, RaiseReplays(db, inst, environment, candidates, listing, now).value);
    }
  }

  /** A recorded answer is the row transaction followed by the replay alerts. */
  lemma AnswerShape(
    db: Db, id: string, i: nat, key: string, refund: string, status: Option<RefundStatus>, ok: bool, others: seq<string>, now: Time)
    requires RecordIdentifiedRefund(db, id, i, key, refund, status, ok, others, now).Some?
    ensures id in db.rows
    ensures var r := db.rows[id];
            var o := RecordIdentified(r, i, refund, if ok then status else None, now);
            && o.Some?
            && RecordIdentifiedRefund(db, id, i, key, refund, status, ok, others, now)
               == RaiseReplays(SetRow(db, id, o.value), o.value.snap.installationId, o.value.snap.environment, o.value.candidates, others, now)
  {
    var linked := IdentifyAndLink(db.rows[id], refund, if ok then status else None, now).value;
    var r' := FinishExecutionAttempt(linked, i, Completed).value;
    assert SetRow(SetRow(db, id, linked), id, r') == SetRow(db, id, r');
  }

  lemma AnswerEvolves(
    db: Db, id: string, i: nat, key: string, refund: string, status: Option<RefundStatus>, ok: bool, others: seq<string>, now: Time)
    requires RecordIdentifiedRefund(db, id, i, key, refund, status, ok, others, now).Some?
    ensures Evolves(db, RecordIdentifiedRefund(db, id, i, key, refund, status, ok, others, now).value)
  {
    AnswerShape(db, id, i, key, refund, status, ok, others, now);
    var st := if ok then status else None;
    var r' := RecordIdentified(db.rows[id], i, refund, st, now).value;
    AnswerReaches(db.rows[id], i, refund, st, now);
    SetRowEvolves(db, id, r');
    ReplaysEvolve(SetRow(db, id, r'), r'.snap.installationId, r'.snap.environment, r'.candidates, others, now);
    EvolvesTransitive(db, SetRow(db, id, r'), RecordIdentifiedRefund(db, id, i, key, refund, status, ok, others, now).value);
  }

  lemma AnswerReaches(r: Row, i: nat, refund: string, status: Option<RefundStatus>, now: Time)
    requires RecordIdentified(r, i, refund, status, now).Some?
    ensures Reaches(r, RecordIdentified(r, i, refund, status, now).value)
  {
    ReachesByTx(r, TxIdentified(i, refund, status, now));
  }

  lemma AlertEvolves(db: Db, inst: string, o: Sighting, c: Option<Classification>, now: Time)
    requires RaiseAlert(db, inst, o, c, now).Some?
    ensures Evolves(db, RaiseAlert(db, inst, o, c, now).value)
  {
    SameRowsEvolve(db, db);
    if c.Some? {
      ExternalEvolves(db, inst, o.refundId,
                      Alert(o.environment, o.tuple.createdAt, o.tuple.paymentKey, o.tuple.amountMinor, o.tuple.currency, c.value), now);
    }
  }

  lemma FollowUpsEvolve(
    db: Db, id: string, inst: string, o: Sighting, alert: Option<Classification>, replays: bool, others: seq<string>, now: Time)
    requires id in db.rows && FollowUps(db, id, inst, o, alert, replays, others, now).Some?
    ensures Evolves(db, FollowUps(db, id, inst, o, alert, replays, others, now).value)
  {
    var listing := if replays then others else [];
    ReplaysEvolve(db, inst, o.environment, db.rows[id].candidates, listing, now);
    var db' := RaiseReplays(db, inst, o.environment, db.rows[id].candidates, listing, now).value;
    AlertEvolves(db', inst, o, alert, now);
    EvolvesTransitive(db, db', FollowUps(db, id, inst, o, alert, replays, others, now).value);
  }

  lemma SightingReaches(r: Row, account: string, o: Sighting, now: Time)
    requires Observe(r, account, o, now).Some?
    ensures Reaches(r, Observe(r, account, o, now).value.row)
  {
    ReachesByTx(r, TxObserve(account, o, now));
  }

  lemma SightEvolves(db: Db, inst: string, o: Sighting, others: seq<string>, now: Time)
    requires ObserveRefund(db, inst, o, others, now).Some?
    ensures Evolves(db, ObserveRefund(db, inst, o, others, now).value)
  {
    if o.metadataRequestId.None? || o.metadataRequestId.value !in db.rows {
      AlertEvolves(db, inst, o, Some(if o.metadataRequestId.None? then External else Tampered), now);
    } else {
      var id := o.metadataRequestId.value;
      var account := db.installations[inst].stripeAccountId;
      var out := Observe(db.rows[id], account, o, now).value;
      SightingReaches(db.rows[id], account, o, now);
      SetRowEvolves(db, id, out.row);
      var written := SetRow(db, id, out.row);
      FollowUpsEvolve(written, id, inst, o, out.alert, out.replaysOthers, others, now);
      EvolvesTransitive(db, written, ObserveRefund(db, inst, o, others, now).value);
    }
  }

  lemma ResolutionReaches(r: Row, alert: bool, first: string, ws: Time, we: Time, now: Time)
    requires ResolveByScan(r, alert, first, ws, we, now).Some?
    ensures Reaches(r, ResolveByScan(r, alert, first, ws, we, now).value)
  {
    ReachesByTx(r, TxResolve(alert, first, ws, we, now));
  }

  lemma DiversionReaches(r: Row, now: Time)
    ensures Reaches(r, Diverted(r, now))
  {
    ReachesByTx(r, TxDivert(now));
  }

  lemma ClaimReaches(r: Row, now: Time)
    requires ClaimExecution(r, now).Some?
    ensures Reaches(r, ClaimExecution(r, now).value)
  {
    ReachesByTx(r, TxClaim(now));
  }

  lemma ScanEvolves(db: Db, scan: CompletedScan)
    requires ResolveAll(db, scan).Some?
    ensures Evolves(db, ResolveAll(db, scan).value)
  {
    var db' := ResolveAll(db, scan).value;
    forall id | id in db.rows
      ensures Reaches(db.rows[id], db'.rows[id])
    {
      var r := db.rows[id];
      ReachesItself(r);
      if ResolveIn(r, db.alerts, id, scan).Some? {
        ResolutionReaches(r, HasUnresolvedAlert(db.alerts, scan.installationId, r.snap), FirstListed(scan, id),
                          scan.windowStart, scan.windowEnd, scan.now);
      }
    }
  }

  lemma DeauthorizationEvolves(db: Db, inst: string, eventId: string, createdAt: Time)
    requires ApplyWebhookDeauthorization(db, inst, eventId, createdAt).Some?
    ensures Evolves(db, ApplyWebhookDeauthorization(db, inst, eventId, createdAt).value)
  {
    forall id | id in db.rows
      ensures Reaches(db.rows[id], ApplyWebhookDeauthorization(db, inst, eventId, createdAt).value.rows[id])
    {
      ReachesByTx(db.rows[id], TxSettle(createdAt));
    }
  }

  /** What the boundary requires before it lets an effect through. */
  predicate GateOpen(db: Db, r: Row) {
    HasActivePilotExecutionContext(db, r.snap) && r.guardReleasedAt.None? && ApprovalAttestationIsValid(db, r)
  }

  predicate Crosses(db: Db, id: string, key: string, r': Row) {
    && id in db.rows && GateOpen(db, db.rows[id])
    && CrossBoundary(db.rows[id], db.installations[db.rows[id].snap.installationId].stripeAccountId, key) == Some(r')
  }

  lemma BoundaryShape(db: Db, id: string, key: string, now: Time)
    ensures var (db', d) := PersistEffectBoundary(db, id, key, now);
            || db' == db
            || (id in db.rows && db' == SetRow(db, id, Diverted(db.rows[id], now)))
            || (id in db'.rows && Crosses(db, id, key, db'.rows[id]) && db' == SetRow(db, id, db'.rows[id]))
  {
  }

  /** The boundary answers `execute` only when it crossed. */
  lemma ExecuteMeansCrossed(db: Db, id: string, key: string, now: Time)
    requires PersistEffectBoundary(db, id, key, now).1.Execute?
    ensures var db' := PersistEffectBoundary(db, id, key, now).0;
            id in db'.rows && Crosses(db, id, key, db'.rows[id]) && db' == SetRow(db, id, db'.rows[id])
  {
  }

  lemma DiversionEvolves(db: Db, id: string, now: Time)
    requires id in db.rows
    ensures Evolves(db, SetRow(db, id, Diverted(db.rows[id], now)))
  {
    DiversionReaches(db.rows[id], now);
    SetRowEvolves(db, id, Diverted(db.rows[id], now));
  }

  /** Loading leaves the row, diverts it, or claims it; a freshly claimed row
      with a valid approval has no execution to be diverted for. */
  lemma LoadShape(db: Db, id: string, key: string, now: Time)
    ensures var db' := LoadRefundExecution(db, id, key, now);
            || db'.rows == db.rows
            || (id in db.rows && db' == SetRow(db, id, Diverted(db.rows[id], now)))
            || (id in db.rows && ClaimExecution(db.rows[id], now).Some? && db' == SetRow(db, id, ClaimExecution(db.rows[id], now).value))
  {
  }

  lemma LoadEvolves(db: Db, id: string, key: string, now: Time)
    requires LoadRefundExecution(db, id, key, now).rows != db.rows
    ensures Evolves(db, LoadRefundExecution(db, id, key, now))
  {
    LoadShape(db, id, key, now);
    if LoadRefundExecution(db, id, key, now) == SetRow(db, id, Diverted(db.rows[id], now)) {
      DiversionEvolves(db, id, now);
    } else {
      ClaimReaches(db.rows[id], now);
      SetRowEvolves(db, id, ClaimExecution(db.rows[id], now).value);
    }
  }

  lemma RejectionEvolves(db: Db, id: string, actor: string, at: Option<AttestationRow>, now: Time)
    requires DecideRefundRequest(db, id, actor, Reject, at, now).Some?
    ensures Evolves(db, DecideRefundRequest(db, id, actor, Reject, at, now).value)
  {
    TxEvolves(db, id, TxReject(now));
  }

  lemma OutcomeEvolves(db: Db, id: string, tx: RowTx)
    requires IsOutcome(tx) && RecordOutcome(db, id, tx).Some?
    ensures Evolves(db, RecordOutcome(db, id, tx).value)
  {
    TxEvolves(db, id, tx);
  }

  lemma CancellationEvolves(db: Db, id: string, actor: string, now: Time)
    requires CancelRefundRequest(db, id, actor, now).Some?
    ensures Evolves(db, CancelRefundRequest(db, id, actor, now).value)
  {
    TxEvolves(db, id, TxCancel(now));
  }

  lemma RecoveryEvolves(db: Db, id: string, now: Time)
    requires RecoverOrphan(db, id, now).rows != db.rows
    ensures Evolves(db, RecoverOrphan(db, id, now))
  {
    DiversionEvolves(db, id, now);
  }

  lemma RefreshEvolves(
    db: Db, id: string, inst: string, refund: string, environment: Environment, t: RefundTuple, status: Option<RefundStatus>, now: Time)
    requires ObserveLinkedRefund(db, id, inst, refund, environment, t, status, now).Some?
    ensures Evolves(db, ObserveLinkedRefund(db, id, inst, refund, environment, t, status, now).value)
  {
    RefreshReaches(db.rows[id], refund, environment, t, status, now);
    SetRowEvolves(db, id, Refresh(db.rows[id], refund, environment, t, status, now).value);
  }

  lemma RefreshReaches(r: Row, refund: string, environment: Environment, t: RefundTuple, status: Option<RefundStatus>, now: Time)
    requires Refresh(r, refund, environment, t, status, now).Some?
    ensures Reaches(r, Refresh(r, refund, environment, t, status, now).value)
  {
    ReachesByTx(r, TxRefresh(refund, environment, t, status, now));
  }

  /** A step that is neither a creation, nor a crossing, nor an approval. */
  lemma QuietStepEvolves(db: Db, a: Action)
    requires !a.CreateRequest? && !a.Boundary? && !(a.Decide? && a.kind == Approve)
    ensures Evolves(db, Step(db, a))
  {
    if Step(db, a).rows == db.rows {
      SameRowsEvolve(db, Step(db, a));
    } else {
      match a
      case Decide(id, actor, _, at, now) => RejectionEvolves(db, id, actor, at, now);
      case Load(id, key, now) => LoadEvolves(db, id, key, now);
      case Answer(id, i, key, refund, status, ok, others, now) => AnswerEvolves(db, id, i, key, refund, status, ok, others, now);
      case Sight(inst, o, others, now) => SightEvolves(db, inst, o, others, now);
      case CommitScan(scan) => ScanEvolves(db, scan);
      case Deauthorize(inst, eventId, createdAt) => DeauthorizationEvolves(db, inst, eventId, createdAt);
      case Cancel(id, actor, now) => CancellationEvolves(db, id, actor, now);
      case ExpireDue(id, now) => TxEvolves(db, id, TxExpire(now));
      case Outcome(id, tx) => OutcomeEvolves(db, id, tx);
      case Recover(id, now) => RecoveryEvolves(db, id, now);
      case RefreshLinked(id, inst, refund, environment, t, status, now) =>
        RefreshEvolves(db, id, inst, refund, environment, t, status, now);
    }
  }

  predicate CrossesBy(db: Db, a: Action, db': Db) {
    && a.Boundary? && a.id in db'.rows && Crosses(db, a.id, a.key, db'.rows[a.id])
    && db' == SetRow(db, a.id, db'.rows[a.id])
  }

  /** The approval an approving decision stores. */
  function ApprovalBy(a: Action): Approval
    requires a.Decide? && a.attestation.Some?
  {
    Approval(Approve, a.actorId, a.now, Some(a.attestation.value.id), a.attestation)
  }

  predicate ApprovesBy(db: Db, a: Action, db': Db) {
    && a.Decide? && a.kind == Approve && a.attestation.Some? && a.id in db.rows
    && a.actorId in db.users && db.users[a.actorId].approverEnabled && db.rows[a.id].snap.requesterUserId != a.actorId
    && ApproveRow(db.rows[a.id], ApprovalBy(a)).Some?
    && db' == SetRow(db, a.id, ApproveRow(db.rows[a.id], ApprovalBy(a)).value)
  }

  /** Every step of every actor creates one request, approves one, crosses one
      boundary through the open gate, or moves rows by quiet transactions. */
  lemma StepShape(db: Db, a: Action)
    ensures var db' := Step(db, a);
            || Evolves(db, db')
            || (a.CreateRequest? && CreateRefundRequest(db, a.snap) == Some(db'))
            || CrossesBy(db, a, db')
            || ApprovesBy(db, a, db')
  {
    if a.CreateRequest? || (a.Decide? && a.kind == Approve) {
      SameRowsEvolve(db, db);
    } else if a.Boundary? {
      BoundaryShape(db, a.id, a.key, a.now);
      SameRowsEvolve(db, db);
      if a.id in db.rows {
        DiversionEvolves(db, a.id, a.now);
      }
    } else {
      QuietStepEvolves(db, a);
    }
  }

  // ------------------------------------------------- one held guard a payment

  predicate RowsSound(db: Db) {
    forall id | id in db.rows :: Sound(db.rows[id]) && db.rows[id].snap.requestId == id
  }

  /** At most one request per environment and payment holds its guard. */
  predicate GuardsUnique(db: Db) {
    forall i, j | i in db.rows && j in db.rows && db.rows[i].guardReleasedAt.None? && db.rows[j].guardReleasedAt.None?
      && db.rows[i].snap.environment == db.rows[j].snap.environment
      && db.rows[i].snap.paymentKey == db.rows[j].snap.paymentKey :: i == j
  }

  lemma ReachedRowIsLater(r: Row, r': Row)
    requires Sound(r) && Reaches(r, r')
    ensures Sound(r') && r'.snap == r.snap && Advances(r, r')
  {
    var txs :| Quiet(txs) && r' == Run(r, txs);
    RunKeepsSound(r, txs);
    EveryRunAdvances(r, txs);
  }

  lemma EvolutionKeepsGuards(db: Db, db': Db)
    requires RowsSound(db) && GuardsUnique(db) && Evolves(db, db')
    ensures RowsSound(db') && GuardsUnique(db')
  {
    forall id | id in db.rows
      ensures Sound(db'.rows[id]) && db'.rows[id].snap == db.rows[id].snap
      ensures db'.rows[id].guardReleasedAt.None? ==> db.rows[id].guardReleasedAt.None?
    {
      ReachedRowIsLater(db.rows[id], db'.rows[id]);
    }
  }

  lemma CreationKeepsGuards(db: Db, snap: Snapshot)
    requires RowsSound(db) && GuardsUnique(db) && CreateRefundRequest(db, snap).Some?
    ensures RowsSound(CreateRefundRequest(db, snap).value) && GuardsUnique(CreateRefundRequest(db, snap).value)
  {
    NewRowIsSound(snap);
  }

  lemma CrossingKeepsGuards(db: Db, a: Action, db': Db)
    requires RowsSound(db) && GuardsUnique(db) && CrossesBy(db, a, db')
    ensures RowsSound(db') && GuardsUnique(db')
  {
    var account := db.installations[db.rows[a.id].snap.installationId].stripeAccountId;
    CrossKeepsSound(db.rows[a.id], account, a.key);
    CrossKeepsGuard(db.rows[a.id], account, a.key);
  }

  lemma CrossKeepsGuard(r: Row, account: string, key: string)
    requires CrossBoundary(r, account, key).Some?
    ensures CrossBoundary(r, account, key).value.guardReleasedAt == r.guardReleasedAt
  {
  }

  lemma ApprovalKeepsGuards(db: Db, a: Action, db': Db)
    requires RowsSound(db) && GuardsUnique(db) && ApprovesBy(db, a, db')
    ensures RowsSound(db') && GuardsUnique(db')
  {
    ApprovalKeepsSound(db.rows[a.id], ApprovalBy(a));
  }

  lemma ApprovalKeepsSound(r: Row, a: Approval)
    requires Sound(r) && ApproveRow(r, a).Some?
    ensures var r' := ApproveRow(r, a).value;
            Sound(r') && r'.snap == r.snap && r'.guardReleasedAt == r.guardReleasedAt && AttemptsOf(r') == AttemptsOf(r)
  {
  }

  lemma StepKeepsGuards(db: Db, a: Action)
    requires RowsSound(db) && GuardsUnique(db)
    ensures RowsSound(Step(db, a)) && GuardsUnique(Step(db, a))
  {
    StepShape(db, a);
    if Evolves(db, Step(db, a)) {
      EvolutionKeepsGuards(db, Step(db, a));
    } else if a.CreateRequest? {
      CreationKeepsGuards(db, a.snap);
    } else if a.Boundary? {
      CrossingKeepsGuards(db, a, Step(db, a));
    } else {
      ApprovalKeepsGuards(db, a, Step(db, a));
    }
  }

  /** In every interleaving of every actor, from a tenant without requests, all
      rows are sound and no payment has two requests holding its guard. */
  lemma {:induction false} EveryTenantRunKeepsGuards(db: Db, actions: seq<Action>)
    requires db.rows == map[]
    ensures RowsSound(RunAll(db, actions)) && GuardsUnique(RunAll(db, actions))
  {
    if actions != [] {
      EveryTenantRunKeepsGuards(db, actions[..|actions| - 1]);
      StepKeepsGuards(RunAll(db, actions[..|actions| - 1]), actions[|actions| - 1]);
    }
  }

  // ------------------------------------------------ deauthorization barrier

  predicate StillExecutable(db: Db, id: string) {
    id in db.rows && db.rows[id].status in {PendingApproval, Approved, Executing}
  }

  lemma SettledRowIsNotExecutable(r: Row, now: Time)
    requires Sound(r)
    ensures Settle(r, now).status !in {PendingApproval, Approved, Executing}
  {
  }

  /** When a deauthorization commits, no request of the tenant remains pending,
      approved or executing. */
  lemma DeauthorizationSettlesEverything(db: Db, inst: string, eventId: string, createdAt: Time)
    requires RowsSound(db) && ApplyWebhookDeauthorization(db, inst, eventId, createdAt).Some?
    ensures var db' := ApplyWebhookDeauthorization(db, inst, eventId, createdAt).value;
            !db'.tenantActive && forall id | id in db'.rows :: !StillExecutable(db', id)
  {
    forall id | id in db.rows
      ensures Settle(db.rows[id], createdAt).status !in {PendingApproval, Approved, Executing}
    {
      SettledRowIsNotExecutable(db.rows[id], createdAt);
    }
  }

  /** Attempts recorded so far: each is one crossing of the effect boundary. */
  function Crossings(db: Db, id: string): nat { if id in db.rows then |AttemptsOf(db.rows[id])| else 0 }

  lemma QuietTxAddsNoAttempt(r: Row, tx: RowTx)
    requires Sound(r) && !tx.TxCross?
    ensures |AttemptsOf(Apply(r, tx))| == |AttemptsOf(r)|
  {
    if Try(r, tx).Some? {
      match tx
      case TxObserve(account, o, now) => SightingAddsNoAttempt(r, account, o, now);
      case TxResolve(alert, first, ws, we, now) => ResolutionAddsNoAttempt(r, alert, first, ws, we, now);
      case _ => OtherTxAddsNoAttempt(r, tx);
    }
  }

  lemma ObservedAsAddsNoAttempt(r: Row, r': Row, input: Identification, now: Time)
    requires ObservedAs(r, r', input, now)
    ensures AttemptsOf(r') == AttemptsOf(r)
  {
  }

  lemma SightingAddsNoAttempt(r: Row, account: string, o: Sighting, now: Time)
    requires Observe(r, account, o, now).Some?
    ensures AttemptsOf(Observe(r, account, o, now).value.row) == AttemptsOf(r)
  {
    ObservationShape(r, account, o, now);
    ObservedAsAddsNoAttempt(r, Observe(r, account, o, now).value.row, IdentificationOf(o), now);
  }

  lemma ResolutionAddsNoAttempt(r: Row, alert: bool, first: string, ws: Time, we: Time, now: Time)
    requires ResolveByScan(r, alert, first, ws, we, now).Some?
    ensures AttemptsOf(ResolveByScan(r, alert, first, ws, we, now).value) == AttemptsOf(r)
  {
    var r' := ResolveByScan(r, alert, first, ws, we, now).value;
    ResolutionShape(r, alert, first, ws, we, now);
    if first in r.candidates && ObservedAs(r, r', ScanIdentification(r, first, alert), now) {
      ObservedAsAddsNoAttempt(r, r', ScanIdentification(r, first, alert), now);
    }
  }

  lemma OtherTxAddsNoAttempt(r: Row, tx: RowTx)
    requires Try(r, tx).Some? && !tx.TxCross? && !tx.TxObserve? && !tx.TxResolve?
    ensures |AttemptsOf(Try(r, tx).value)| == |AttemptsOf(r)|
  {
  }

  lemma {:induction false} QuietRunAddsNoAttempt(r: Row, txs: seq<RowTx>)
    requires Sound(r) && Quiet(txs)
    ensures |AttemptsOf(Run(r, txs))| == |AttemptsOf(r)|
  {
    if txs != [] {
      QuietRunAddsNoAttempt(r, txs[..|txs| - 1]);
      RunKeepsSound(r, txs[..|txs| - 1]);
      QuietTxAddsNoAttempt(Run(r, txs[..|txs| - 1]), txs[|txs| - 1]);
    }
  }

  /** A request gains an attempt only at the boundary, through the open gate. */
  lemma OnlyOpenGateCrosses(db: Db, a: Action, id: string)
    requires RowsSound(db) && Crossings(Step(db, a), id) != Crossings(db, id)
    ensures CrossesBy(db, a, Step(db, a)) && a.id == id
  {
    StepShape(db, a);
    var db' := Step(db, a);
    if Evolves(db, db') {
      if id in db.rows {
        var txs :| Quiet(txs) && db'.rows[id] == Run(db.rows[id], txs);
        QuietRunAddsNoAttempt(db.rows[id], txs);
      }
    } else if ApprovesBy(db, a, db') {
      ApprovalKeepsSound(db.rows[a.id], ApprovalBy(a));
    }
  }

  predicate NoReauthorization(actions: seq<Action>) { forall i | 0 <= i < |actions| :: !actions[i].Reauthorize? }

  lemma InactiveTenantStaysInactive(db: Db, a: Action)
    requires !db.tenantActive && !a.Reauthorize?
    ensures !Step(db, a).tenantActive
  {
  }

  /** From a deauthorization until somebody reauthorizes, no interleaving of any
      later steps, scan resumptions included, crosses any effect boundary. */
  lemma {:induction false} DeauthorizedTenantNeverCrosses(db: Db, actions: seq<Action>, id: string)
    requires RowsSound(db) && GuardsUnique(db) && !db.tenantActive && NoReauthorization(actions)
    ensures !RunAll(db, actions).tenantActive && RowsSound(RunAll(db, actions)) && GuardsUnique(RunAll(db, actions))
    ensures Crossings(RunAll(db, actions), id) == Crossings(db, id)
  {
    if actions != [] {
      var n := |actions| - 1;
      var before := RunAll(db, actions[..n]);
      DeauthorizedTenantNeverCrosses(db, actions[..n], id);
      InactiveTenantStaysInactive(before, actions[n]);
      StepKeepsGuards(before, actions[n]);
      if Crossings(Step(before, actions[n]), id) != Crossings(before, id) {
        OnlyOpenGateCrosses(before, actions[n], id);
        assert false;
      }
    }
  }
}
