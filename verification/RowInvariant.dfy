/** The inductive invariant of a refund request row and the guard, refinement
    and monotonicity theorems that follow from it. */
module RowInvariant {
  import opened Prelude
  import opened Domain
  import opened Observation
  import opened Execution
  import opened Attestation
  import opened RefundRow

  /** Which effect, guard and timestamps go with which workflow status. */
  predicate StatusFits(r: Row) {
    && (r.guardReleasedAt.Some? <==> CanReleasePaymentGuard(r.status, r.effect, RefundStatusOf(r)))
    && match r.status
       case PendingApproval => r.effect == NotStarted && r.approval.None?
       case Approved => r.effect == NotStarted && r.approval.Some?
       case Executing => r.approval.Some? && r.executionStartedAt.Some?
       case ReconciliationRequired =>
         && r.approval.Some? && r.executionStartedAt.Some? && r.safeAfterAt.Some?
         && r.executionStartedAt.value <= r.safeAfterAt.value
       case Succeeded => r.effect == Identified && RefundStatusOf(r) == Some(RefundSucceeded)
       case FailedTerminal | Stale => r.effect == AbsenceProven
       case Rejected | Canceled | Expired => r.effect == NotStarted
  }

  /** An execution exists exactly once the boundary has been crossed. */
  predicate ExecutionFits(r: Row) {
    match r.execution
    case None =>
      && r.candidates == map[]
      && HasCertainAbsenceOfEffect(r.effect)
      && (r.effect == AbsenceProven ==> r.status == FailedTerminal || r.status == Stale)
    case Some(x) =>
      && r.effect != NotStarted
      && r.status in {Executing, ReconciliationRequired, Succeeded, FailedTerminal}
      && |x.attempts| > 0 && Numbered(x.attempts)
      && (x.refundId.None? ==> x.refundStatus.None? && x.lastEventAt.None?)
      && (x.refundId.Some? ==> IsRefundId(x.refundId.value))
  }

  /** An identified effect has a linked refund; a running linked request is identified. */
  predicate LinkFits(r: Row) {
    && (r.effect == Identified ==> LinkOf(r).Some?)
    && (LinkOf(r).Some? && Running(r.status) ==> r.effect == Identified)
    && (forall id | id in r.candidates ::
          r.candidates[id].state in {UniqueLinked, ExactLinked} ==> LinkOf(r) == Some(id))
    && (LinkOf(r).None? && r.status == Executing ==> r.candidates == map[])
  }

  /** Attempts of a running unlinked request have not concluded. */
  predicate AttemptsFit(r: Row) {
    Running(r.status) && LinkOf(r).None? ==>
      && WellFormedAttempts(AttemptsOf(r))
      && (r.status == Executing && r.effect == Possible && AttemptsOf(r) != [] ==>
            AttemptsOf(r)[|AttemptsOf(r)| - 1].state == Started)
  }

  predicate Sound(r: Row) {
    StatusFits(r) && ExecutionFits(r) && LinkFits(r)
    && (r.execution.Some? ==> AttemptsFit(r))
  }

  // --------------------------------------------- preservation, by operation

  lemma FinishKeepsSound(r: Row, i: nat, state: AttemptState)
    requires Sound(r) && FinishExecutionAttempt(r, i, state).Some?
    ensures var r' := FinishExecutionAttempt(r, i, state).value;
            StatusFits(r') && ExecutionFits(r') && LinkFits(r') && LinkOf(r') == LinkOf(r)
  {
  }

  /** What identification needs of a row: its candidates may be stale. */
  predicate Identifiable(r: Row) {
    && StatusFits(r) && ExecutionFits(r) && r.execution.Some? && AttemptsFit(r)
    && (r.effect == Identified ==> LinkOf(r).Some?) && (LinkOf(r).Some? && Running(r.status) ==> r.effect == Identified)
  }

  lemma IdentifyLinks(r: Row, input: Identification, now: Time)
    requires r.execution.Some? && MarkRefundIdentified(r, input, now).Some?
    requires r.execution.value.refundId.None? ==> r.execution.value.refundStatus.None? && r.execution.value.lastEventAt.None?
    ensures var r' := MarkRefundIdentified(r, input, now).value;
            && r'.execution.Some? && LinkOf(r') == Some(input.refundId)
            && r'.candidates == r.candidates && AttemptsOf(r') == AttemptsOf(r)
  {
  }

  lemma IdentifyKeepsStatus(r: Row, input: Identification, now: Time)
    requires Identifiable(r) && MarkRefundIdentified(r, input, now).Some?
    ensures StatusFits(MarkRefundIdentified(r, input, now).value)
  {
  }

  lemma IdentifyKeepsExecution(r: Row, input: Identification, now: Time)
    requires Identifiable(r) && MarkRefundIdentified(r, input, now).Some?
    ensures var r' := MarkRefundIdentified(r, input, now).value;
            ExecutionFits(r') && (Running(r'.status) ==> r'.effect == Identified)
  {
  }

  lemma IdentifyKeepsSound(r: Row, input: Identification, now: Time)
    requires Identifiable(r) && MarkRefundIdentified(r, input, now).Some?
    ensures var r' := MarkRefundIdentified(r, input, now).value;
            && StatusFits(r') && ExecutionFits(r') && r'.execution.Some? && AttemptsFit(r')
            && (r'.effect == Identified ==> LinkOf(r').Some?)
            && (Running(r'.status) ==> r'.effect == Identified)
            && LinkOf(r') == Some(input.refundId)
            && r'.candidates == r.candidates && AttemptsOf(r') == AttemptsOf(r)
  {
    IdentifyLinks(r, input, now);
    IdentifyKeepsStatus(r, input, now);
    IdentifyKeepsExecution(r, input, now);
  }

  lemma IdentifyThenLinkKeepsSound(r: Row, input: Identification, state: CandidateState, now: Time)
    requires Identifiable(r)
    requires forall id | id in r.candidates :: r.candidates[id].state in {UniqueLinked, ExactLinked} ==> LinkOf(r) == Some(id)
    requires MarkRefundIdentified(r, input, now).Some?
    ensures Sound(MarkRefundIdentified(r, input, now).value)
    ensures Sound(LinkCandidateIfAny(MarkRefundIdentified(r, input, now).value, input.refundId, state))
  {
    IdentifyKeepsSound(r, input, now);
    var r' := MarkRefundIdentified(r, input, now).value;
    assert LinkOf(r).Some? ==> LinkOf(r) == LinkOf(r');
  }

  lemma RecordedCandidateFits(r: Row, id: string, input: CandidateInput)
    requires Sound(r) && r.execution.Some? && RecordCandidate(r, id, input).Some?
    ensures var r' := RecordCandidate(r, id, input).value;
            && r' == r.(candidates := r'.candidates) && id in r'.candidates
            && r.candidates.Keys <= r'.candidates.Keys
            && (forall c | c in r'.candidates ::
                  r'.candidates[c].state in {UniqueLinked, ExactLinked} ==> LinkOf(r) == Some(c))
  {
  }

  lemma ObserveUnlinkedKeepsSound(r: Row, o: Sighting, now: Time)
    requires StatusFits(r) && ExecutionFits(r) && r.execution.Some? && AttemptsFit(r) && Running(r.status) && LinkOf(r).None?
    requires r.effect != Identified
    requires forall id | id in r.candidates :: r.candidates[id].state !in {UniqueLinked, ExactLinked}
    requires ObserveUnlinked(r, o, now).Some?
    ensures Sound(ObserveUnlinked(r, o, now).value.row)
  {
    if EvidenceOf(r, o.source) == EvidenceExact {
      IdentifyThenLinkKeepsSound(r, IdentificationOf(o), ExactLinked, now);
    } else {
      assert ObserveUnlinked(r, o, now).value.row == Diverted(r, now);
    }
  }

  lemma ObserveLinkedKeepsSound(r: Row, o: Sighting, now: Time)
    requires Sound(r) && r.execution.Some? && o.refundId in r.candidates && LinkOf(r) == Some(o.refundId)
    requires ObserveLinked(r, o, now).Some?
    ensures Sound(ObserveLinked(r, o, now).value.row)
  {
    var keepUnique := r.candidates[o.refundId].state == UniqueLinked && EvidenceOf(r, o.source) != EvidenceExact;
    var r1 := MarkCandidateLinked(r, o.refundId, if keepUnique then UniqueLinked else ExactLinked).value;
    assert Sound(r1);
    if MarkRefundIdentified(r1, IdentificationOf(o), now).Some? {
      IdentifyThenLinkKeepsSound(r1, IdentificationOf(o), ExactLinked, now);
    }
  }

  lemma ObserveKeepsSound(r: Row, account: string, o: Sighting, now: Time)
    requires Sound(r) && Observe(r, account, o, now).Some?
    ensures Sound(Observe(r, account, o, now).value.row)
  {
    var c := ClassifyFor(r, account, o);
    if r.execution.Some? && c != External && c != Tampered {
      RecordedCandidateFits(r, o.refundId, InputOf(r, o, now));
      var recorded := RecordCandidate(r, o.refundId, InputOf(r, o, now)).value;
      if c == WorkflowCandidate && Running(r.status) {
        ObserveUnlinkedKeepsSound(recorded, o, now);
      } else if c == WorkflowRefund {
        ObserveLinkedKeepsSound(recorded, o, now);
      }
    }
  }

  lemma ResolveKeepsSound(r: Row, alert: bool, first: string, ws: Time, we: Time, now: Time)
    requires Sound(r) && ResolveByScan(r, alert, first, ws, we, now).Some?
    ensures Sound(ResolveByScan(r, alert, first, ws, we, now).value)
  {
    if r.execution.Some? && LinkOf(r).None? && ScanCovers(r, ws, we) && first in r.candidates {
      var c := r.candidates[first];
      var d := DecideRefundCandidate(None, first, c.evidence, |r.candidates|, true, true);
      var input := Identification(first, c.status, !alert, c.eventAt);
      if d == LinkUnique && MarkRefundIdentified(r, input, now).Some? {
        IdentifyThenLinkKeepsSound(r, input, UniqueLinked, now);
      }
    }
  }

  lemma CrossKeepsSound(r: Row, account: string, key: string)
    requires Sound(r) && CrossBoundary(r, account, key).Some?
    ensures var r' := CrossBoundary(r, account, key).value;
            && Sound(r')
            && AttemptsOf(r') == AttemptsOf(r) + [Attempt(|AttemptsOf(r)| + 1, Started)]
  {
    MaxOfNumbered(AttemptsOf(r));
  }

  lemma AnswerKeepsSound(r: Row, i: nat, id: string, status: Option<RefundStatus>, now: Time)
    requires Sound(r) && RecordIdentified(r, i, id, status, now).Some?
    ensures Sound(RecordIdentified(r, i, id, status, now).value)
  {
    var input := Identification(id, status, false, None);
    IdentifyThenLinkKeepsSound(r, input, ExactLinked, now);
    IdentifyKeepsSound(r, input, now);
    FinishKeepsSound(LinkCandidateIfAny(MarkRefundIdentified(r, input, now).value, id, ExactLinked), i, Completed);
  }

  lemma OutcomeKeepsSound(r: Row, tx: RowTx)
    requires Sound(r) && Try(r, tx).Some?
    requires tx.TxIdentified? || tx.TxRetryable? || tx.TxAmbiguous? || tx.TxTerminalAttempt?
    ensures Sound(Try(r, tx).value)
  {
    match tx
    case TxIdentified(i, id, status, now) => AnswerKeepsSound(r, i, id, status, now);
    case TxRetryable(i) =>
      FinishKeepsSound(r, i, RetryableFailure);
    case TxAmbiguous(i, now) =>
      FinishKeepsSound(r, i, AmbiguousFailure);
    case TxTerminalAttempt(i, now) =>
      FinishKeepsSound(r, i, TerminalFailure);
  }

  // ------------------------------- what an observation can do to a row

  /** Candidates aside, an observation does nothing, diverts the request to
      reconciliation, or identifies the sighted refund. */
  predicate ObservedAs(r: Row, r': Row, input: Identification, now: Time) {
    || r' == r.(candidates := r'.candidates)
    || r' == Diverted(r, now).(candidates := r'.candidates)
    || (&& MarkRefundIdentified(r, input, now).Some?
        && r' == MarkRefundIdentified(r, input, now).value.(candidates := r'.candidates))
  }

  /** Identification neither reads nor writes the candidates. */
  lemma ConvergeFrame(r: Row, candidates: map<string, Candidate>, previous: Option<RefundStatus>, input: Identification, now: Time)
    ensures var o, q := ConvergeWorkflow(r, previous, input, now), ConvergeWorkflow(r.(candidates := candidates), previous, input, now);
            q == if o.None? then None else Some(o.value.(candidates := candidates))
  {
  }

  /** Identification does not look at the candidates. */
  lemma IdentifyFrame(r: Row, candidates: map<string, Candidate>, input: Identification, now: Time)
    ensures var q := r.(candidates := candidates);
            && (MarkRefundIdentified(r, input, now).Some? <==> MarkRefundIdentified(q, input, now).Some?)
            && (MarkRefundIdentified(r, input, now).Some? ==>
                  MarkRefundIdentified(q, input, now).value
                    == MarkRefundIdentified(r, input, now).value.(candidates := candidates))
  {
    if r.execution.Some? {
      var x := r.execution.value;
      var linked := r.(execution := Some(x.(
        refundId := Some(input.refundId), refundStatus := input.status,
        lastEventAt := if input.eventAt.Some? then input.eventAt else x.lastEventAt)));
      ConvergeFrame(linked, candidates, x.refundStatus, input, now);
      assert linked.(candidates := candidates) == r.(candidates := candidates).(execution := linked.execution);
    }
  }

  lemma LinkedShape(r: Row, o: Sighting, now: Time)
    requires r.execution.Some? && o.refundId in r.candidates && ObserveLinked(r, o, now).Some?
    ensures ObservedAs(r, ObserveLinked(r, o, now).value.row, IdentificationOf(o), now)
  {
    var keepUnique := r.candidates[o.refundId].state == UniqueLinked && EvidenceOf(r, o.source) != EvidenceExact;
    var r1 := MarkCandidateLinked(r, o.refundId, if keepUnique then UniqueLinked else ExactLinked).value;
    IdentifyFrame(r, r1.candidates, IdentificationOf(o), now);
  }

  lemma UnlinkedShape(r: Row, o: Sighting, now: Time)
    requires ObserveUnlinked(r, o, now).Some?
    ensures ObservedAs(r, ObserveUnlinked(r, o, now).value.row, IdentificationOf(o), now)
  {
    if EvidenceOf(r, o.source) != EvidenceExact {
      assert ObserveUnlinked(r, o, now).value.row == Diverted(r, now);
    }
  }

  lemma ObservedAsFrame(r: Row, candidates: map<string, Candidate>, r': Row, input: Identification, now: Time)
    requires ObservedAs(r.(candidates := candidates), r', input, now)
    ensures ObservedAs(r, r', input, now)
  {
    IdentifyFrame(r, candidates, input, now);
  }

  lemma ObservationShape(r: Row, account: string, o: Sighting, now: Time)
    requires Observe(r, account, o, now).Some?
    ensures ObservedAs(r, Observe(r, account, o, now).value.row, IdentificationOf(o), now)
  {
    var c := ClassifyFor(r, account, o);
    if r.execution.Some? && c != External && c != Tampered {
      var recorded := RecordCandidate(r, o.refundId, InputOf(r, o, now)).value;
      assert recorded == r.(candidates := recorded.candidates) && o.refundId in recorded.candidates;
      if c == WorkflowCandidate && Running(r.status) {
        UnlinkedShape(recorded, o, now);
        ObservedAsFrame(r, recorded.candidates, ObserveUnlinked(recorded, o, now).value.row, IdentificationOf(o), now);
      } else if c == WorkflowRefund {
        LinkedShape(recorded, o, now);
        ObservedAsFrame(r, recorded.candidates, ObserveLinked(recorded, o, now).value.row, IdentificationOf(o), now);
      }
    }
  }

  /** The identification a scan resolution offers for the first candidate. */
  function ScanIdentification(r: Row, first: string, alert: bool): Identification
    requires first in r.candidates
  {
    Identification(first, r.candidates[first].status, !alert, r.candidates[first].eventAt)
  }

  predicate ResumedByScan(r: Row, r': Row, now: Time) {
    && r.status == ReconciliationRequired && r.effect == Possible && LinkOf(r).None? && r.candidates == map[]
    && r' == r.(status := Executing, effect := AbsenceProven, executionStartedAt := Some(now), version := r.version + 2)
  }

  lemma ResolutionShape(r: Row, alert: bool, first: string, ws: Time, we: Time, now: Time)
    requires ResolveByScan(r, alert, first, ws, we, now).Some?
    ensures var r' := ResolveByScan(r, alert, first, ws, we, now).value;
            || (ResumedByScan(r, r', now) && ScanCovers(r, ws, we) && !alert)
            || r' == r
            || r' == Diverted(r, now).(candidates := r'.candidates)
            || (first in r.candidates && ObservedAs(r, r', ScanIdentification(r, first, alert), now))
  {
  }

  /** Every transaction by any actor keeps the row invariant. */
  lemma TxKeepsSound(r: Row, tx: RowTx)
    requires Sound(r)
    ensures Sound(Apply(r, tx))
  {
    if Try(r, tx).Some? {
      match tx
      case TxObserve(account, o, now) => ObserveKeepsSound(r, account, o, now);
      case TxResolve(alert, first, ws, we, now) => ResolveKeepsSound(r, alert, first, ws, we, now);
      case TxCross(account, key, _) => CrossKeepsSound(r, account, key);
      case TxRefresh(id, _, _, status, now) =>
        IdentifyThenLinkKeepsSound(r, Identification(id, status, status.Some? && !Unsettled(status), None), ExactLinked, now);
      case TxIdentified(_, _, _, _) => OutcomeKeepsSound(r, tx);
      case TxRetryable(_) => OutcomeKeepsSound(r, tx);
      case TxAmbiguous(_, _) => OutcomeKeepsSound(r, tx);
      case TxTerminalAttempt(_, _) => OutcomeKeepsSound(r, tx);
      case _ =>
    }
  }

  /** Soundness along any run, from any sound row. */
  lemma {:induction false} RunKeepsSound(r: Row, txs: seq<RowTx>)
    requires Sound(r)
    ensures Sound(Run(r, txs)) && Run(r, txs).snap == r.snap
  {
    if txs != [] {
      var before := Run(r, txs[..|txs| - 1]);
      RunKeepsSound(r, txs[..|txs| - 1]);
      TxKeepsSound(before, txs[|txs| - 1]);
    }
  }
}
