/** Revision accounting over whole runs: the compatibility check accepts every
    honest run and rejects every run with an untracked revision, for any number
    of interleaved, crashed, diverted and resumed attempts. */
module VersionAccounting {
  import opened Prelude
  import opened Domain
  import opened Observation
  import opened Execution
  import opened Attestation
  import opened RefundRow
  import opened RowInvariant
  import opened RowTheorems

  predicate Attested(r: Row) { r.approval.Some? && r.approval.value.attestation.Some? }

  function AttestedVersion(r: Row): int
    requires Attested(r)
  {
    r.approval.value.attestation.value.requestVersion
  }

  /** Unlinked states from which the request can still execute. */
  predicate Tracked(r: Row) {
    && Attested(r) && LinkOf(r).None?
    && (r.status == Approved || r.status == Executing || (r.status == ReconciliationRequired && r.effect == Possible))
  }

  /** Revisions since the attested version, counted from attempts alone: each of
      k attempts crosses once and leaves `Possible` once, by one revision when
      refused retryably and by three through reconciliation. */
  function ExpectedDelta(r: Row): int {
    var k := |AttemptsOf(r)|;
    var refused := CountRetryable(AttemptsOf(r));
    if r.status == Approved then 1
    else if r.status == ReconciliationRequired then 4 * k - 2 * refused
    else if r.effect == NotStarted then 2
    else if r.effect == AbsenceProven then 2 + 4 * k - 2 * refused
    else 4 * k - 2 * refused - 1
  }

  /** Actual minus expected revisions. */
  function Drift(r: Row): int
    requires Attested(r)
  {
    r.version - AttestedVersion(r) - ExpectedDelta(r)
  }

  predicate Executable(r: Row) { LinkOf(r).None? && (r.status == Approved || r.status == Executing) }

  predicate Accepted(r: Row)
    requires Attested(r)
  {
    VersionIsCompatible(r.status, r.effect, r.version, r.execution, AttestedVersion(r))
  }

  /** What the three loops of the check compute, in closed form. */
  lemma AcceptedIffNoDrift(r: Row)
    requires Sound(r) && Tracked(r) && Executable(r) && AttestedVersion(r) >= 0
    ensures Accepted(r) <==> Drift(r) == 0
  {
    if r.execution.Some? {
      var attempts := AttemptsOf(r);
      CostClosedForm(attempts);
      CostClosedForm(attempts[..|attempts| - 1]);
    }
  }

  /** No version but one is accepted for a given status, effect and attempts. */
  lemma AtMostOneVersionAccepted(
    status: WorkflowStatus, effect: EffectState, execution: Option<Execution>, attested: int, v: int, w: int)
    requires VersionIsCompatible(status, effect, v, execution, attested)
    requires VersionIsCompatible(status, effect, w, execution, attested)
    ensures v == w
  {
  }

  // ---------------------------------------------- drift is a conserved quantity

  predicate KeepsDrift(r: Row, r': Row) {
    Tracked(r') ==> Tracked(r) && Drift(r') == Drift(r)
  }

  lemma CrossKeepsDrift(r: Row, account: string, key: string)
    requires Sound(r) && CrossBoundary(r, account, key).Some?
    ensures KeepsDrift(r, CrossBoundary(r, account, key).value)
  {
    CrossKeepsSound(r, account, key);
    CountRetryableAppend(AttemptsOf(r), Attempt(|AttemptsOf(r)| + 1, Started));
  }

  lemma RefusalKeepsDrift(r: Row, i: nat)
    requires Sound(r) && RecordRetryable(r, i).Some?
    ensures KeepsDrift(r, RecordRetryable(r, i).value)
  {
    CountRetryableUpdate(AttemptsOf(r), i, AttemptsOf(r)[i].(state := RetryableFailure));
  }

  lemma AmbiguityKeepsDrift(r: Row, i: nat, now: Time)
    requires Sound(r) && RecordAmbiguous(r, i, now).Some?
    ensures KeepsDrift(r, RecordAmbiguous(r, i, now).value)
  {
    CountRetryableUpdate(AttemptsOf(r), i, AttemptsOf(r)[i].(state := AmbiguousFailure));
  }

  lemma IdentifyEndsTracking(r: Row, input: Identification, now: Time)
    requires Sound(r) && MarkRefundIdentified(r, input, now).Some?
    ensures LinkOf(MarkRefundIdentified(r, input, now).value).Some?
  {
  }

  lemma ObservedAsKeepsDrift(r: Row, r': Row, input: Identification, now: Time)
    requires Sound(r) && ObservedAs(r, r', input, now)
    ensures KeepsDrift(r, r')
  {
    if r' != r.(candidates := r'.candidates) && r' != Diverted(r, now).(candidates := r'.candidates) {
      IdentifyEndsTracking(r, input, now);
    }
  }

  lemma SightingKeepsDrift(r: Row, account: string, o: Sighting, now: Time)
    requires Sound(r) && Observe(r, account, o, now).Some?
    ensures KeepsDrift(r, Observe(r, account, o, now).value.row)
  {
    ObservationShape(r, account, o, now);
    ObservedAsKeepsDrift(r, Observe(r, account, o, now).value.row, IdentificationOf(o), now);
  }

  lemma ResolveKeepsDrift(r: Row, alert: bool, first: string, ws: Time, we: Time, now: Time)
    requires Sound(r) && ResolveByScan(r, alert, first, ws, we, now).Some?
    ensures KeepsDrift(r, ResolveByScan(r, alert, first, ws, we, now).value)
  {
    var r' := ResolveByScan(r, alert, first, ws, we, now).value;
    ResolutionShape(r, alert, first, ws, we, now);
    if first in r.candidates && ObservedAs(r, r', ScanIdentification(r, first, alert), now) {
      ObservedAsKeepsDrift(r, r', ScanIdentification(r, first, alert), now);
    }
  }

  lemma OtherPlainTxKeepsDrift(r: Row, tx: RowTx)
    requires Sound(r) && Plain(tx) && Try(r, tx).Some?
    requires !tx.TxCross? && !tx.TxRetryable? && !tx.TxAmbiguous? && !tx.TxApprove?
    ensures KeepsDrift(r, Try(r, tx).value)
  {
  }

  /** Every transaction but the approval itself conserves drift. */
  lemma TxKeepsDrift(r: Row, tx: RowTx)
    requires Sound(r) && Try(r, tx).Some? && !tx.TxApprove?
    ensures KeepsDrift(r, Try(r, tx).value)
  {
    match tx
    case TxCross(account, key, _) => CrossKeepsDrift(r, account, key);
    case TxRetryable(i) => RefusalKeepsDrift(r, i);
    case TxAmbiguous(i, now) => AmbiguityKeepsDrift(r, i, now);
    case TxObserve(account, o, now) => SightingKeepsDrift(r, account, o, now);
    case TxResolve(alert, first, ws, we, now) => ResolveKeepsDrift(r, alert, first, ws, we, now);
    case TxIdentified(i, id, status, now) => IdentifyEndsTracking(r, Identification(id, status, false, None), now);
    case TxRefresh(id, _, _, status, now) =>
      IdentifyEndsTracking(r, Identification(id, status, status.Some? && !Unsettled(status), None), now);
    case _ => OtherPlainTxKeepsDrift(r, tx);
  }

  /** No transition of the domain leads back to a pending request. */
  lemma RefinementNeverPends(r: Row, r': Row, observed: Option<string>)
    requires Refines(r, r', observed) && r.status != PendingApproval
    ensures r'.status != PendingApproval
  {
    var m, n :| LegalPath(PointOf(r), m, n, PointOf(r'), r, r', observed);
  }

  /** Past its pending state a request never becomes pending again. */
  lemma NeverPendingAgain(r: Row, tx: RowTx)
    requires Sound(r) && r.status != PendingApproval
    ensures Apply(r, tx).status != PendingApproval
  {
    TxRefinesDomain(r, tx);
    RefinementNeverPends(r, Apply(r, tx), ObservedRefund(tx));
  }

  lemma {:induction false} RunKeepsDrift(r: Row, txs: seq<RowTx>)
    requires Sound(r) && r.status != PendingApproval
    ensures Run(r, txs).status != PendingApproval
    ensures KeepsDrift(r, Run(r, txs)) && Run(r, txs).approval == r.approval
  {
    if txs != [] {
      var before := Run(r, txs[..|txs| - 1]);
      var tx := txs[|txs| - 1];
      RunKeepsDrift(r, txs[..|txs| - 1]);
      RunKeepsSound(r, txs[..|txs| - 1]);
      NeverPendingAgain(before, tx);
      if Try(before, tx).Some? {
        ApproveNeedsPending(before, tx);
        TxKeepsDrift(before, tx);
      }
    }
  }

  lemma ApproveNeedsPending(r: Row, tx: RowTx)
    requires Try(r, tx).Some? && r.status != PendingApproval
    ensures !tx.TxApprove?
  {
  }

  /** Soundness of the check. One untracked revision, anywhere, makes it false
      in every later executable state of every run. */
  lemma UntrackedRevisionIsRejectedForever(r: Row, d: int, txs: seq<RowTx>)
    requires Sound(r) && Tracked(r) && Drift(r) == 0 && AttestedVersion(r) >= 0 && d != 0
    ensures var r' := Run(r.(version := r.version + d), txs);
            Executable(r') && Attested(r') ==> !Accepted(r')
  {
    var tampered := r.(version := r.version + d);
    assert Sound(tampered);
    RunKeepsDrift(tampered, txs);
    RunKeepsSound(tampered, txs);
    var r' := Run(tampered, txs);
    if Executable(r') && Attested(r') {
      AcceptedIffNoDrift(r');
    }
  }

  // --------------------------------------------------------- completeness

  /** The approval a run accumulates counts revisions from a version the
      request really had. */
  predicate Accounted(r: Row) {
    && r.version >= 0
    && (r.status == PendingApproval || r.approval.None? || (Attested(r) && AttestedVersion(r) >= 0))
    && (Tracked(r) ==> Drift(r) == 0)
  }

  lemma {:induction false} RunsAreAccounted(snap: Snapshot, txs: seq<RowTx>)
    ensures Sound(Run(NewRow(snap), txs)) && Accounted(Run(NewRow(snap), txs))
  {
    RunKeepsSound(NewRow(snap), txs);
    if txs != [] {
      var before := Run(NewRow(snap), txs[..|txs| - 1]);
      var tx := txs[|txs| - 1];
      RunsAreAccounted(snap, txs[..|txs| - 1]);
      if Try(before, tx).Some? {
        TxAdvances(before, tx);
        if tx.TxApprove? {
          ApprovalStartsAccount(before, tx);
        } else {
          TxKeepsDrift(before, tx);
        }
      }
    }
  }

  lemma ApprovalStartsAccount(r: Row, tx: RowTx)
    requires Sound(r) && r.version >= 0 && tx.TxApprove? && Try(r, tx).Some?
    ensures Accounted(Try(r, tx).value)
  {
  }

  /** Completeness of the check. In every state reachable by any interleaving
      in which the request may still execute, the attested version is accepted. */
  lemma HonestRunsAreAccepted(snap: Snapshot, txs: seq<RowTx>)
    ensures var r := Run(NewRow(snap), txs);
            Executable(r) ==> Attested(r) && Accepted(r)
  {
    RunsAreAccounted(snap, txs);
    var r := Run(NewRow(snap), txs);
    if Executable(r) {
      AcceptedIffNoDrift(r);
    }
  }

  /** The same for a reconciling request: the check accepts it exactly when its
      revisions add up and its latest attempt has not concluded. */
  lemma ReconcilingAcceptedIffNoDrift(r: Row)
    requires Sound(r) && Tracked(r) && r.status == ReconciliationRequired && r.execution.Some? && AttestedVersion(r) >= 0
    ensures Accepted(r) <==> Drift(r) == 0 && AttemptsOf(r)[|AttemptsOf(r)| - 1].state in {Started, AmbiguousFailure}
  {
    var attempts := AttemptsOf(r);
    CostClosedForm(attempts[..|attempts| - 1]);
  }
}
