/** One request against the refund that Stripe holds under its idempotency key,
    with real time: what every store transaction and every creation keeps. The
    resolution of a scan is admitted here only for a scan that left its trace;
    AbsenceTruth shows where that trace comes from. */
module AbsenceCore {
  import opened Prelude
  import opened Domain
  import opened Observation
  import opened Execution
  import opened Attestation
  import opened RefundRow
  import opened RowInvariant
  import opened RowTheorems
  import opened VersionAccounting

  /** The refund Stripe holds under the request's key, with the attempt whose
      call created it. */
  datatype Ledger = NoRefund | Created(creator: nat, at: Time, refundId: string)

  /** `boundary[i]` is the safe boundary stamped when attempt i was diverted. */
  datatype World = World(row: Row, ledger: Ledger, now: Time, boundary: map<nat, Time>)

  datatype Step =
    | Store(tx: RowTx, at: Time)
    | Create(attempt: nat, at: Time, refundId: string)

  function Newest(r: Row): int { |AttemptsOf(r)| - 1 }

  predicate Refused(r: Row, i: nat) {
    i < |AttemptsOf(r)| && AttemptsOf(r)[i].state in {RetryableFailure, TerminalFailure}
  }

  predicate Refusal(tx: RowTx) { tx.TxRetryable? || tx.TxTerminalAttempt? }

  /** The clock a transaction stamps with, where it stamps at all. */
  predicate Clocked(tx: RowTx, at: Time) {
    match tx
    case TxApprove(_) => true
    case TxRetryable(_) => true
    case TxResolve(_, _, _, we, now) => now == at && we <= at
    case _ => tx.now == at
  }

  /** A refund created in the window has left a candidate. */
  predicate Traced(w: World, windowStart: Time, windowEnd: Time) {
    w.ledger.Created? && windowStart <= w.ledger.at <= windowEnd ==> w.ledger.refundId in w.row.candidates
  }

  predicate Admissible(w: World, s: Step) {
    && w.now <= s.at
    && match s
       case Store(tx, at) =>
         && Clocked(tx, at)
         && (Refusal(tx) ==> !(w.ledger.Created? && w.ledger.creator == tx.attempt))
         && (tx.TxResolve? ==> Traced(w, tx.windowStart, tx.windowEnd))
       case Create(i, at, _) =>
         && w.ledger == NoRefund
         && i < |AttemptsOf(w.row)| && !Refused(w.row, i)
         && (i in w.boundary ==> at < w.boundary[i])
  }

  function Stamp(w: World, r': Row): map<nat, Time> {
    if w.row.status != ReconciliationRequired && r'.status == ReconciliationRequired && r'.safeAfterAt.Some?
    then map i: nat | 0 <= i < |AttemptsOf(r')| :: if i in w.boundary then w.boundary[i] else r'.safeAfterAt.value
    else w.boundary
  }

  function Next(w: World, s: Step): World {
    match s
    case Store(tx, at) => World(Apply(w.row, tx), w.ledger, at, Stamp(w, Apply(w.row, tx)))
    case Create(i, at, id) => World(w.row, Created(i, at, id), at, w.boundary)
  }

  /** A refusal recorded by the newest attempt, as opposed to a late one. */
  predicate Timely(w: World, s: Step) {
    s.Store? && Refusal(s.tx) && Try(w.row, s.tx).Some? ==> s.tx.attempt == Newest(w.row)
  }

  // ------------------------------------------------------------ the invariant

  /** No call of this attempt can create a refund any more. */
  predicate Settled(w: World, i: nat) {
    Refused(w.row, i) || (i in w.boundary && w.boundary[i] <= w.now)
  }

  predicate Located(w: World) {
    w.ledger.Created? ==>
      && w.ledger.creator == Newest(w.row)
      && w.row.executionStartedAt.Some? && w.row.executionStartedAt.value <= w.ledger.at
      && (w.row.status == ReconciliationRequired && w.row.safeAfterAt.Some? ==> w.ledger.at <= w.row.safeAfterAt.value)
  }

  predicate Truthful(w: World) {
    && Sound(w.row)
    && (w.row.executionStartedAt.Some? ==> w.row.executionStartedAt.value <= w.now)
    && (w.ledger.Created? ==> w.ledger.at <= w.now)
    && (LinkOf(w.row).None? ==>
          && (forall i | 0 <= i < Newest(w.row) :: Settled(w, i))
          && (w.row.effect == Possible ==>
                && Located(w)
                && (w.row.status == Executing ==> Newest(w.row) !in w.boundary)
                && (w.row.status == ReconciliationRequired ==>
                      Newest(w.row) in w.boundary && Some(w.boundary[Newest(w.row)]) == w.row.safeAfterAt))
          && (w.row.effect == AbsenceProven ==>
                w.ledger == NoRefund && (Newest(w.row) >= 0 ==> Settled(w, Newest(w.row))))
          && (w.row.effect == NotStarted ==> w.ledger == NoRefund)
          && (forall i | i in w.boundary :: i <= Newest(w.row)))
  }

  // ------------------------------------------------------------ preservation

  /** Settlement survives the clock, new stamps and new attempts. */
  lemma SettlementPersists(w: World, w': World)
    requires w.now <= w'.now && AttemptsAdvance(AttemptsOf(w.row), AttemptsOf(w'.row))
    requires forall i | i in w.boundary :: i in w'.boundary && w'.boundary[i] == w.boundary[i]
    ensures forall i: nat | i < |AttemptsOf(w.row)| && Settled(w, i) :: Settled(w', i)
  {
  }

  lemma StampExtends(w: World, r': Row)
    requires forall i | i in w.boundary :: i <= Newest(w.row)
    requires |AttemptsOf(w.row)| <= |AttemptsOf(r')|
    ensures forall i | i in w.boundary :: i in Stamp(w, r') && Stamp(w, r')[i] == w.boundary[i]
  {
  }

  lemma CreateKeepsTruth(w: World, i: nat, at: Time, id: string)
    requires Truthful(w) && Admissible(w, Create(i, at, id))
    ensures Truthful(Next(w, Create(i, at, id)))
  {
    if LinkOf(w.row).None? {
      assert i < Newest(w.row) ==> Settled(w, i);
      assert w.row.effect == Possible && i == Newest(w.row);
      SettlementPersists(w, Next(w, Create(i, at, id)));
    }
  }

  /** An observation that leaves the request unlinked did nothing, diverted it,
      or resumed it after an empty covering scan. */
  lemma UnlinkedOutcome(r: Row, tx: RowTx)
    requires Sound(r) && !Plain(tx) && Try(r, tx).Some? && LinkOf(Try(r, tx).value).None?
    ensures var r' := Try(r, tx).value;
            || r' == r.(candidates := r'.candidates)
            || r' == Diverted(r, tx.now).(candidates := r'.candidates)
            || (tx.TxResolve? && ResumedByScan(r, r', tx.now) && ScanCovers(r, tx.windowStart, tx.windowEnd))
  {
    match tx
    case TxObserve(account, o, now) => SightingOutcome(r, account, o, now);
    case TxResolve(alert, first, ws, we, now) => ResolutionOutcome(r, alert, first, ws, we, now);
    case TxIdentified(i, id, status, now) => IdentifyEndsTracking(r, Identification(id, status, false, None), now);
    case TxRefresh(id, _, _, status, now) =>
      IdentifyEndsTracking(r, Identification(id, status, status.Some? && !Unsettled(status), None), now);
  }

  lemma SightingOutcome(r: Row, account: string, o: Sighting, now: Time)
    requires Sound(r) && Observe(r, account, o, now).Some? && LinkOf(Observe(r, account, o, now).value.row).None?
    ensures var r' := Observe(r, account, o, now).value.row;
            r' == r.(candidates := r'.candidates) || r' == Diverted(r, now).(candidates := r'.candidates)
  {
    ObservationShape(r, account, o, now);
    if MarkRefundIdentified(r, IdentificationOf(o), now).Some? {
      IdentifyEndsTracking(r, IdentificationOf(o), now);
    }
  }

  lemma ResolutionOutcome(r: Row, alert: bool, first: string, ws: Time, we: Time, now: Time)
    requires Sound(r) && ResolveByScan(r, alert, first, ws, we, now).Some?
    requires LinkOf(ResolveByScan(r, alert, first, ws, we, now).value).None?
    ensures var r' := ResolveByScan(r, alert, first, ws, we, now).value;
            || r' == r.(candidates := r'.candidates)
            || r' == Diverted(r, now).(candidates := r'.candidates)
            || (ResumedByScan(r, r', now) && ScanCovers(r, ws, we))
  {
    ResolutionShape(r, alert, first, ws, we, now);
    if first in r.candidates && MarkRefundIdentified(r, ScanIdentification(r, first, alert), now).Some? {
      IdentifyEndsTracking(r, ScanIdentification(r, first, alert), now);
    }
  }

  /** A request resumed by a scan that left its trace has no refund in Stripe. */
  lemma TracedResumptionIsTruthful(w: World, tx: RowTx, at: Time)
    requires Truthful(w) && Admissible(w, Store(tx, at)) && tx.TxResolve?
    requires Try(w.row, tx).Some? && ResumedByScan(w.row, Try(w.row, tx).value, tx.now)
    requires ScanCovers(w.row, tx.windowStart, tx.windowEnd)
    ensures w.ledger == NoRefund
  {
  }

  lemma ObservationKeepsTruth(w: World, tx: RowTx, at: Time)
    requires Truthful(w) && Admissible(w, Store(tx, at)) && !Plain(tx) && Try(w.row, tx).Some?
    ensures Truthful(Next(w, Store(tx, at)))
  {
    var r' := Try(w.row, tx).value;
    TxKeepsSound(w.row, tx);
    TxAdvances(w.row, tx);
    if LinkOf(r').None? {
      UnlinkedOutcome(w.row, tx);
      if tx.TxResolve? && ResumedByScan(w.row, r', tx.now) && ScanCovers(w.row, tx.windowStart, tx.windowEnd) {
        TracedResumptionIsTruthful(w, tx, at);
        ResumptionKeepsTruth(w, r', at);
      } else if r' == w.row.(candidates := r'.candidates) {
        IdleKeepsTruth(w, r', at);
      } else {
        DiversionKeepsTruth(w, r', at);
      }
    } else {
      LinkingKeepsStart(w.row, tx);
    }
  }

  lemma IdleKeepsTruth(w: World, r': Row, at: Time)
    requires Truthful(w) && w.now <= at && Sound(r') && r' == w.row.(candidates := r'.candidates)
    ensures Truthful(World(r', w.ledger, at, Stamp(w, r')))
  {
    if LinkOf(w.row).None? {
      StampExtends(w, r');
      SettlementPersists(w, World(r', w.ledger, at, Stamp(w, r')));
    }
  }

  lemma ResumptionKeepsTruth(w: World, r': Row, at: Time)
    requires Truthful(w) && w.now <= at && Sound(r') && w.ledger == NoRefund
    requires ResumedByScan(w.row, r', at) && w.row.safeAfterAt.Some? && w.row.safeAfterAt.value <= at
    ensures Truthful(World(r', w.ledger, at, Stamp(w, r')))
  {
    if LinkOf(w.row).None? {
      StampExtends(w, r');
      SettlementPersists(w, World(r', w.ledger, at, Stamp(w, r')));
    }
  }

  lemma DiversionKeepsTruth(w: World, r': Row, at: Time)
    requires Truthful(w) && w.now <= at && Sound(r') && w.row.status == Executing && LinkOf(w.row).None?
    requires r' == EnterReconciliation(w.row, at).(candidates := r'.candidates)
    ensures Truthful(World(r', w.ledger, at, Stamp(w, r')))
  {
    if LinkOf(w.row).None? {
      StampExtends(w, r');
      SettlementPersists(w, World(r', w.ledger, at, Stamp(w, r')));
    }
  }

  /** Identification leaves the execution start alone. */
  lemma IdentifyKeepsStart(r: Row, input: Identification, now: Time)
    requires MarkRefundIdentified(r, input, now).Some?
    ensures MarkRefundIdentified(r, input, now).value.executionStartedAt == r.executionStartedAt
  {
  }

  lemma ObservedAsKeepsStart(r: Row, r': Row, input: Identification, now: Time)
    requires ObservedAs(r, r', input, now)
    ensures r'.executionStartedAt == r.executionStartedAt
  {
    if MarkRefundIdentified(r, input, now).Some? {
      IdentifyKeepsStart(r, input, now);
    }
  }

  lemma ResolutionKeepsStart(r: Row, alert: bool, first: string, ws: Time, we: Time, now: Time)
    requires ResolveByScan(r, alert, first, ws, we, now).Some?
    ensures var r' := ResolveByScan(r, alert, first, ws, we, now).value;
            r'.executionStartedAt == r.executionStartedAt || (LinkOf(r').None? && ResumedByScan(r, r', now))
  {
    var r' := ResolveByScan(r, alert, first, ws, we, now).value;
    ResolutionShape(r, alert, first, ws, we, now);
    if first in r.candidates && ObservedAs(r, r', ScanIdentification(r, first, alert), now) {
      ObservedAsKeepsStart(r, r', ScanIdentification(r, first, alert), now);
    }
  }

  lemma SightingKeepsStart(r: Row, account: string, o: Sighting, now: Time)
    requires Observe(r, account, o, now).Some?
    ensures Observe(r, account, o, now).value.row.executionStartedAt == r.executionStartedAt
  {
    ObservationShape(r, account, o, now);
    ObservedAsKeepsStart(r, Observe(r, account, o, now).value.row, IdentificationOf(o), now);
  }

  lemma LinkingKeepsStart(r: Row, tx: RowTx)
    requires !Plain(tx) && Try(r, tx).Some? && LinkOf(Try(r, tx).value).Some?
    ensures Try(r, tx).value.executionStartedAt == r.executionStartedAt
  {
    match tx
    case TxObserve(account, o, now) => SightingKeepsStart(r, account, o, now);
    case TxResolve(alert, first, ws, we, now) => ResolutionKeepsStart(r, alert, first, ws, we, now);
    case TxIdentified(i, id, status, now) => IdentifyKeepsStart(r, Identification(id, status, false, None), now);
    case TxRefresh(id, _, _, status, now) =>
      IdentifyKeepsStart(r, Identification(id, status, status.Some? && !Unsettled(status), None), now);
  }

  lemma RefusalKeepsTruth(w: World, tx: RowTx, at: Time)
    requires Truthful(w) && Admissible(w, Store(tx, at)) && Timely(w, Store(tx, at)) && Refusal(tx) && Try(w.row, tx).Some?
    ensures Truthful(Next(w, Store(tx, at)))
  {
    TxKeepsSound(w.row, tx);
    var r' := Try(w.row, tx).value;
    var a := AttemptsOf(w.row);
    assert AttemptsOf(r') == a[Newest(w.row) := AttemptsOf(r')[Newest(w.row)]];
    forall i | 0 <= i < Newest(r')
      ensures Settled(Next(w, Store(tx, at)), i)
    {
      assert Settled(w, i);
    }
  }

  lemma CrossingKeepsTruth(w: World, tx: RowTx, at: Time)
    requires Truthful(w) && Admissible(w, Store(tx, at)) && tx.TxCross? && Try(w.row, tx).Some?
    ensures Truthful(Next(w, Store(tx, at)))
  {
    CrossKeepsSound(w.row, tx.account, tx.key);
    var w' := Next(w, Store(tx, at));
    forall i | 0 <= i < Newest(w'.row)
      ensures Settled(w', i)
    {
      assert Settled(w, i);
    }
  }

  lemma AmbiguityKeepsTruth(w: World, tx: RowTx, at: Time)
    requires Truthful(w) && Admissible(w, Store(tx, at)) && tx.TxAmbiguous? && Try(w.row, tx).Some?
    ensures Truthful(Next(w, Store(tx, at)))
  {
    TxKeepsSound(w.row, tx);
    var w' := Next(w, Store(tx, at));
    if LinkOf(w'.row).None? {
      forall i | 0 <= i <= Newest(w'.row) && Settled(w, i)
        ensures Settled(w', i)
      {
      }
    }
  }

  /** What the remaining transactions do to an unlinked row: divert it, or leave
      its attempts alone without leaving or entering a possible effect. */
  lemma OtherPlainShape(r: Row, tx: RowTx)
    requires Sound(r) && Plain(tx) && Try(r, tx).Some? && !Refusal(tx) && !tx.TxCross? && !tx.TxAmbiguous?
    ensures var r' := Try(r, tx).value;
            && r'.execution == r.execution
            && (|| (r.status == Executing && !tx.TxApprove? && r' == EnterReconciliation(r, tx.now))
                || (&& (r'.effect == r.effect || (HasCertainAbsenceOfEffect(r.effect) && r'.effect == AbsenceProven))
                    && (r'.effect == Possible ==> r' == r)
                    && (r'.executionStartedAt == r.executionStartedAt || (tx.TxClaim? && r'.executionStartedAt == Some(tx.now)))
                    && (r'.status != ReconciliationRequired || r' == r)))
  {
  }

  lemma CalmKeepsTruth(w: World, r': Row, at: Time)
    requires Truthful(w) && w.now <= at && Sound(r') && r'.execution == w.row.execution
    requires r'.effect == w.row.effect || (HasCertainAbsenceOfEffect(w.row.effect) && r'.effect == AbsenceProven)
    requires r'.effect == Possible ==> r' == w.row
    requires r'.executionStartedAt == w.row.executionStartedAt || r'.executionStartedAt == Some(at)
    requires r'.status != ReconciliationRequired || r' == w.row
    ensures Truthful(World(r', w.ledger, at, Stamp(w, r')))
  {
    if LinkOf(w.row).None? {
      StampExtends(w, r');
      SettlementPersists(w, World(r', w.ledger, at, Stamp(w, r')));
    }
  }

  lemma OtherPlainKeepsTruth(w: World, tx: RowTx, at: Time)
    requires Truthful(w) && Admissible(w, Store(tx, at)) && Plain(tx) && Try(w.row, tx).Some?
    requires !Refusal(tx) && !tx.TxCross? && !tx.TxAmbiguous?
    ensures Truthful(Next(w, Store(tx, at)))
  {
    TxKeepsSound(w.row, tx);
    OtherPlainShape(w.row, tx);
    var r' := Try(w.row, tx).value;
    if w.row.status == Executing && !tx.TxApprove? && r' == EnterReconciliation(w.row, tx.now) {
      if LinkOf(w.row).None? {
        DiversionKeepsTruth(w, r', at);
      }
    } else {
      CalmKeepsTruth(w, r', at);
    }
  }

  lemma CoreStepKeepsTruth(w: World, s: Step)
    requires Truthful(w) && Admissible(w, s) && Timely(w, s)
    ensures Truthful(Next(w, s))
  {
    match s
    case Create(i, at, id) => CreateKeepsTruth(w, i, at, id);
    case Store(tx, at) =>
      if Try(w.row, tx).None? {
        IdleKeepsTruth(w, w.row, at);
      } else if !Plain(tx) {
        ObservationKeepsTruth(w, tx, at);
      } else if Refusal(tx) {
        RefusalKeepsTruth(w, tx, at);
      } else if tx.TxCross? {
        CrossingKeepsTruth(w, tx, at);
      } else if tx.TxAmbiguous? {
        AmbiguityKeepsTruth(w, tx, at);
      } else {
        OtherPlainKeepsTruth(w, tx, at);
      }
  }

  // ---------------------------------------------- why a listing leaves a trace

  /** A refund the worker created for this request: it carries the request's
      proof and tuple. */
  predicate WorkerMade(r: Row, account: string, o: Sighting) {
    && o.metadataRequestId == Some(r.snap.requestId)
    && ProofValid(r.snap, account, o)
  }

  /** Observing the worker's own refund leaves a candidate behind, which no
      later transaction removes; so an empty candidate set after a complete
      listing means no such refund was listed. */
  lemma ListedWorkerRefundLeavesCandidate(r: Row, account: string, o: Sighting, now: Time, txs: seq<RowTx>)
    requires Sound(r) && r.execution.Some? && WorkerMade(r, account, o)
    requires Observe(r, account, o, now).Some?
    ensures o.refundId in Run(Observe(r, account, o, now).value.row, txs).candidates
  {
    var r' := Observe(r, account, o, now).value.row;
    ObserveKeepsSound(r, account, o, now);
    SightingIsRecorded(r, account, o, now);
    EveryRunAdvances(r', txs);
  }

  lemma SightingIsRecorded(r: Row, account: string, o: Sighting, now: Time)
    requires Sound(r) && r.execution.Some? && WorkerMade(r, account, o)
    requires Observe(r, account, o, now).Some?
    ensures o.refundId in Observe(r, account, o, now).value.row.candidates
  {
    var recorded := RecordCandidate(r, o.refundId, InputOf(r, o, now)).value;
    RecordAdvancesCandidates(r, o.refundId, InputOf(r, o, now));
    var c := ClassifyFor(r, account, o);
    if c == WorkflowCandidate && Running(r.status) {
      UnlinkedAdvancesCandidates(recorded, o, now);
    } else if c == WorkflowRefund {
      LinkedAdvancesCandidates(recorded, o, now);
    }
  }
}
