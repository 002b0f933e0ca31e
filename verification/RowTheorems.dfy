/** Whole-run theorems about one refund request: every update refines the
    domain tables, observations only advance, effect boundaries are separated
    by absence proofs, and unsettled links stay refresh targets. */
module RowTheorems {
  import opened Prelude
  import opened Domain
  import opened Observation
  import opened Execution
  import opened Attestation
  import opened RefundRow
  import opened RowInvariant

  // ------------------------------------------------- refinement of the domain

  datatype Point = Point(status: WorkflowStatus, effect: EffectState)

  function PointOf(r: Row): Point { Point(r.status, r.effect) }

  /** The refund a transaction has evidence about. */
  function ObservedRefund(tx: RowTx): Option<string> {
    match tx
    case TxIdentified(_, id, _, _) => Some(id)
    case TxObserve(_, o, _) => Some(o.refundId)
    case TxRefresh(id, _, _, _, _) => Some(id)
    case TxResolve(_, first, _, _, _) => Some(first)
    case _ => None
  }

  /** One UPDATE allowed by the domain: the effect moves on the evidence of the
      stored link and the observed refund, then the workflow moves in the
      context of the new effect. */
  predicate Legal(p: Point, p': Point, r: Row, r': Row, observed: Option<string>) {
    && TransitionEffectState(p.effect, p'.effect, EffectEvidence(RefundStatusOf(r'), LinkOf(r), observed)).Ok?
    && TransitionWorkflowStatus(p.status, p'.status,
         TransitionContext(p'.effect, RefundStatusOf(r'), CorrectionFrom(p, p', r, r', observed))).Ok?
  }

  /** The explicit correction a succeeded workflow needs before it may fail. */
  function CorrectionFrom(p: Point, p': Point, r: Row, r': Row, observed: Option<string>): Option<Correction> {
    if && p.status == Succeeded && p'.status == FailedTerminal
       && LinkOf(r).Some? && observed.Some? && RefundStatusOf(r).Some? && RefundStatusOf(r').Some?
    then Some(Correction(p.effect, p'.effect, LinkOf(r).value, observed.value, RefundStatusOf(r).value, RefundStatusOf(r').value))
    else None
  }

  /** At most three legal updates lead from one row to the other. */
  ghost predicate Refines(r: Row, r': Row, observed: Option<string>) {
    exists m, n: Point :: LegalPath(PointOf(r), m, n, PointOf(r'), r, r', observed)
  }

  predicate LegalPath(p: Point, m: Point, n: Point, p': Point, r: Row, r': Row, observed: Option<string>) {
    Legal(p, m, r, r', observed) && Legal(m, n, r, r', observed) && Legal(n, p', r, r', observed)
  }

  lemma RefinesVia(r: Row, r': Row, observed: Option<string>, m: Point)
    requires Legal(PointOf(r), m, r, r', observed) && Legal(m, PointOf(r'), r, r', observed)
    ensures Refines(r, r', observed)
  {
    assert LegalPath(PointOf(r), m, PointOf(r'), PointOf(r'), r, r', observed);
  }

  lemma RefinesDirectly(r: Row, r': Row, observed: Option<string>)
    requires Legal(PointOf(r), PointOf(r'), r, r', observed)
    ensures Refines(r, r', observed)
  {
    RefinesVia(r, r', observed, PointOf(r));
  }

  lemma IdentifyRefines(r: Row, input: Identification, now: Time)
    requires Sound(r) && MarkRefundIdentified(r, input, now).Some?
    ensures Refines(r, MarkRefundIdentified(r, input, now).value, Some(input.refundId))
  {
    var r' := MarkRefundIdentified(r, input, now).value;
    var observed := Some(input.refundId);
    if r.status == ReconciliationRequired && r.effect == AbsenceProven && r' != r && !input.resolve {
      RefinesVia(r, r', observed, Point(ReconciliationRequired, Possible));
    } else {
      RefinesDirectly(r, r', observed);
    }
  }

  /** Refinement reads only status, effect, link and refund status. */
  lemma RefinesFrame(r: Row, r': Row, q: Row, q': Row, observed: Option<string>)
    requires Refines(r, r', observed)
    requires PointOf(q) == PointOf(r) && LinkOf(q) == LinkOf(r) && RefundStatusOf(q) == RefundStatusOf(r)
    requires PointOf(q') == PointOf(r') && RefundStatusOf(q') == RefundStatusOf(r')
    ensures Refines(q, q', observed)
  {
    var m, n :| LegalPath(PointOf(r), m, n, PointOf(r'), r, r', observed);
    assert LegalPath(PointOf(q), m, n, PointOf(q'), q, q', observed);
  }

  lemma ObserveRefines(r: Row, account: string, o: Sighting, now: Time)
    requires Sound(r) && Observe(r, account, o, now).Some?
    ensures Refines(r, Observe(r, account, o, now).value.row, Some(o.refundId))
  {
    var r' := Observe(r, account, o, now).value.row;
    ObservationShape(r, account, o, now);
    if r' == r.(candidates := r'.candidates) || r' == Diverted(r, now).(candidates := r'.candidates) {
      RefinesDirectly(r, r', Some(o.refundId));
    } else {
      IdentifyRefines(r, IdentificationOf(o), now);
      RefinesFrame(r, MarkRefundIdentified(r, IdentificationOf(o), now).value, r, r', Some(o.refundId));
    }
  }

  lemma ResolveRefines(r: Row, alert: bool, first: string, ws: Time, we: Time, now: Time)
    requires Sound(r) && ResolveByScan(r, alert, first, ws, we, now).Some?
    ensures Refines(r, ResolveByScan(r, alert, first, ws, we, now).value, Some(first))
  {
    var r' := ResolveByScan(r, alert, first, ws, we, now).value;
    if r.execution.None? || LinkOf(r).Some? || !ScanCovers(r, ws, we) {
      RefinesDirectly(r, r', Some(first));
    } else if r.candidates == map[] {
      if alert {
        RefinesDirectly(r, r', Some(first));
      } else {
        RefinesVia(r, r', Some(first), Point(ReconciliationRequired, AbsenceProven));
      }
    } else {
      var c := r.candidates[first];
      var input := Identification(first, c.status, !alert, c.eventAt);
      if && DecideRefundCandidate(None, first, c.evidence, |r.candidates|, true, true) == LinkUnique
         && c.lastSeenWindowEnd.Some? && c.state != CandidateConflict {
        IdentifyRefines(r, input, now);
        RefinesFrame(r, MarkRefundIdentified(r, input, now).value, r, r', Some(first));
      } else {
        RefinesDirectly(r, r', Some(first));
      }
    }
  }

  lemma AnswerRefines(r: Row, i: nat, id: string, status: Option<RefundStatus>, now: Time)
    requires Sound(r) && RecordIdentified(r, i, id, status, now).Some?
    ensures Refines(r, RecordIdentified(r, i, id, status, now).value, Some(id))
  {
    var input := Identification(id, status, false, None);
    IdentifyRefines(r, input, now);
    RefinesFrame(r, MarkRefundIdentified(r, input, now).value, r, RecordIdentified(r, i, id, status, now).value, Some(id));
  }

  lemma RefreshRefines(
    r: Row, id: string, environment: Environment, t: RefundTuple, status: Option<RefundStatus>, now: Time)
    requires Sound(r) && Refresh(r, id, environment, t, status, now).Some?
    ensures Refines(r, Refresh(r, id, environment, t, status, now).value, Some(id))
  {
    IdentifyRefines(r, Identification(id, status, status.Some? && !Unsettled(status), None), now);
  }

  lemma TerminalAttemptRefines(r: Row, i: nat, now: Time)
    requires Sound(r) && RecordTerminalAttempt(r, i, now).Some?
    ensures Refines(r, RecordTerminalAttempt(r, i, now).value, None)
  {
    RefinesVia(r, RecordTerminalAttempt(r, i, now).value, None, Point(Executing, AbsenceProven));
  }

  lemma PlainTxRefines(r: Row, tx: RowTx)
    requires Sound(r) && Plain(tx) && !tx.TxTerminalAttempt? && Try(r, tx).Some?
    ensures Refines(r, Try(r, tx).value, None)
  {
    RefinesDirectly(r, Try(r, tx).value, None);
  }

  /** Every transaction on a sound row is a sequence of transitions the domain
      tables allow, with their evidence. */
  lemma TxRefinesDomain(r: Row, tx: RowTx)
    requires Sound(r)
    ensures Refines(r, Apply(r, tx), ObservedRefund(tx))
  {
    if Try(r, tx).None? {
      RefinesDirectly(r, r, ObservedRefund(tx));
    } else {
      match tx
      case TxObserve(account, o, now) => ObserveRefines(r, account, o, now);
      case TxResolve(alert, first, ws, we, now) => ResolveRefines(r, alert, first, ws, we, now);
      case TxIdentified(i, id, status, now) => AnswerRefines(r, i, id, status, now);
      case TxRefresh(id, environment, t, status, now) => RefreshRefines(r, id, environment, t, status, now);
      case TxTerminalAttempt(i, now) => TerminalAttemptRefines(r, i, now);
      case _ => PlainTxRefines(r, tx);
    }
  }

  lemma NewRowIsSound(snap: Snapshot)
    ensures Sound(NewRow(snap))
  {
  }

  /** Refinement over whole runs: whatever any actors did before, in any order,
      the next transaction is allowed by the domain. */
  lemma EveryRunRefinesDomain(snap: Snapshot, txs: seq<RowTx>, next: RowTx)
    ensures Refines(Run(NewRow(snap), txs), Apply(Run(NewRow(snap), txs), next), ObservedRefund(next))
  {
    RunKeepsSound(NewRow(snap), txs);
    TxRefinesDomain(Run(NewRow(snap), txs), next);
  }

  /** The guard policy over whole runs, both directions. */
  lemma EveryRunReleasesGuardExactlyByPolicy(snap: Snapshot, txs: seq<RowTx>)
    ensures var r := Run(NewRow(snap), txs);
            r.guardReleasedAt.Some? <==> CanReleasePaymentGuard(r.status, r.effect, RefundStatusOf(r))
  {
    RunKeepsSound(NewRow(snap), txs);
  }

  // --------------------------------------------------- what only advances

  function CandidateOrder(s: CandidateState): nat {
    match s
    case CandidatePending => 0
    case CandidateConflict => 1
    case UniqueLinked => 2
    case ExactLinked => 3
  }

  function LastEventOf(r: Row): Option<Time> {
    if r.execution.None? then None else r.execution.value.lastEventAt
  }

  predicate CandidatesAdvance(c: map<string, Candidate>, c': map<string, Candidate>) {
    forall id | id in c :: id in c' && c'[id].tuple == c[id].tuple && CandidateOrder(c[id].state) <= CandidateOrder(c'[id].state)
  }

  predicate AttemptsAdvance(a: seq<Attempt>, a': seq<Attempt>) {
    && |a| <= |a'|
    && forall i | 0 <= i < |a| :: a'[i].number == a[i].number && (a[i].state != Started ==> a'[i] == a[i])
  }

  /** The link is written once, the stored refund status and event watermark
      never go back, candidates only move up, attempts finish once, a released
      guard keeps its timestamp and the effect never becomes unstarted again. */
  predicate Advances(r: Row, r': Row) {
    && (LinkOf(r).Some? ==> LinkOf(r') == LinkOf(r))
    && Rank(RefundStatusOf(r)) <= Rank(RefundStatusOf(r'))
    && NotBefore(LastEventOf(r), LastEventOf(r'))
    && CandidatesAdvance(r.candidates, r'.candidates)
    && AttemptsAdvance(AttemptsOf(r), AttemptsOf(r'))
    && (r.guardReleasedAt.Some? ==> r'.guardReleasedAt == r.guardReleasedAt)
    && (r.effect != NotStarted ==> r'.effect != NotStarted)
    && r.version <= r'.version
  }

  lemma AdvancesIsTransitive(a: Row, b: Row, c: Row)
    requires Advances(a, b) && Advances(b, c)
    ensures Advances(a, c)
  {
    forall id | id in a.candidates
      ensures id in c.candidates && c.candidates[id].tuple == a.candidates[id].tuple
      ensures CandidateOrder(a.candidates[id].state) <= CandidateOrder(c.candidates[id].state)
    {
      assert id in b.candidates;
    }
  }

  /** What identification stores on the execution. */
  lemma IdentifyAdvancesExecution(r: Row, input: Identification, now: Time)
    requires MarkRefundIdentified(r, input, now).Some?
    requires r.execution.Some? && r.execution.value.refundId.None? ==> r.execution.value.refundStatus.None?
    ensures var r' := MarkRefundIdentified(r, input, now).value;
            && (LinkOf(r).Some? ==> LinkOf(r') == LinkOf(r))
            && Rank(RefundStatusOf(r)) <= Rank(RefundStatusOf(r'))
            && NotBefore(LastEventOf(r), LastEventOf(r'))
            && AttemptsOf(r') == AttemptsOf(r) && r'.candidates == r.candidates
  {
  }

  lemma IdentifyAdvances(r: Row, input: Identification, now: Time)
    requires Sound(r) && MarkRefundIdentified(r, input, now).Some?
    ensures Advances(r, MarkRefundIdentified(r, input, now).value)
  {
    IdentifyAdvancesExecution(r, input, now);
  }

  /** Observation as candidates plus identification. */
  lemma ObservedAsAdvances(r: Row, r': Row, input: Identification, now: Time)
    requires Sound(r) && ObservedAs(r, r', input, now) && CandidatesAdvance(r.candidates, r'.candidates)
    ensures Advances(r, r')
  {
    if r' != r.(candidates := r'.candidates) && r' != Diverted(r, now).(candidates := r'.candidates) {
      IdentifyAdvances(r, input, now);
    }
  }

  lemma RecordAdvancesCandidates(r: Row, id: string, input: CandidateInput)
    requires RecordCandidate(r, id, input).Some?
    ensures CandidatesAdvance(r.candidates, RecordCandidate(r, id, input).value.candidates)
    ensures id in RecordCandidate(r, id, input).value.candidates
  {
  }

  lemma ObserveAdvancesCandidates(r: Row, account: string, o: Sighting, now: Time)
    requires Sound(r) && Observe(r, account, o, now).Some?
    ensures CandidatesAdvance(r.candidates, Observe(r, account, o, now).value.row.candidates)
  {
    var c := ClassifyFor(r, account, o);
    if r.execution.Some? && c != External && c != Tampered {
      RecordAdvancesCandidates(r, o.refundId, InputOf(r, o, now));
      var recorded := RecordCandidate(r, o.refundId, InputOf(r, o, now)).value;
      if c == WorkflowCandidate && Running(r.status) {
        UnlinkedAdvancesCandidates(recorded, o, now);
      } else if c == WorkflowRefund {
        LinkedAdvancesCandidates(recorded, o, now);
      }
    }
  }

  lemma UnlinkedAdvancesCandidates(r: Row, o: Sighting, now: Time)
    requires ObserveUnlinked(r, o, now).Some?
    ensures CandidatesAdvance(r.candidates, ObserveUnlinked(r, o, now).value.row.candidates)
  {
    if EvidenceOf(r, o.source) == EvidenceExact {
      IdentifyFrame(r, r.candidates, IdentificationOf(o), now);
    } else {
      assert ObserveUnlinked(r, o, now).value.row == Diverted(r, now);
    }
  }

  lemma LinkedAdvancesCandidates(r: Row, o: Sighting, now: Time)
    requires r.execution.Some? && o.refundId in r.candidates && ObserveLinked(r, o, now).Some?
    ensures CandidatesAdvance(r.candidates, ObserveLinked(r, o, now).value.row.candidates)
  {
    var keepUnique := r.candidates[o.refundId].state == UniqueLinked && EvidenceOf(r, o.source) != EvidenceExact;
    var r1 := MarkCandidateLinked(r, o.refundId, if keepUnique then UniqueLinked else ExactLinked).value;
    IdentifyFrame(r1, r1.candidates, IdentificationOf(o), now);
    assert ObserveLinked(r, o, now).value.row.candidates == r1.candidates;
  }

  lemma ResolveAdvances(r: Row, alert: bool, first: string, ws: Time, we: Time, now: Time)
    requires Sound(r) && ResolveByScan(r, alert, first, ws, we, now).Some?
    ensures Advances(r, ResolveByScan(r, alert, first, ws, we, now).value)
  {
    var r' := ResolveByScan(r, alert, first, ws, we, now).value;
    ResolutionShape(r, alert, first, ws, we, now);
    ResolveAdvancesCandidates(r, alert, first, ws, we, now);
    if first in r.candidates && ObservedAs(r, r', ScanIdentification(r, first, alert), now) {
      ObservedAsAdvances(r, r', ScanIdentification(r, first, alert), now);
    }
  }

  lemma ConflictAdvances(candidates: map<string, Candidate>)
    ensures CandidatesAdvance(candidates, Conflicted(candidates))
  {
  }

  lemma UniqueLinkAdvances(r: Row, q: Row, first: string)
    requires q.candidates == r.candidates
    ensures CandidatesAdvance(r.candidates, LinkCandidateIfAny(q, first, UniqueLinked).candidates)
  {
  }

  /** The three ways a resolution treats the candidates. */
  lemma ResolvedCandidates(r: Row, alert: bool, first: string, ws: Time, we: Time, now: Time)
    requires ResolveByScan(r, alert, first, ws, we, now).Some?
    ensures var c := ResolveByScan(r, alert, first, ws, we, now).value.candidates;
            || c == r.candidates
            || c == Conflicted(r.candidates)
            || (&& first in r.candidates && MarkRefundIdentified(r, ScanIdentification(r, first, alert), now).Some?
                && c == LinkCandidateIfAny(MarkRefundIdentified(r, ScanIdentification(r, first, alert), now).value, first, UniqueLinked).candidates)
  {
  }

  lemma IdentifyKeepsCandidates(r: Row, input: Identification, now: Time)
    requires MarkRefundIdentified(r, input, now).Some?
    ensures MarkRefundIdentified(r, input, now).value.candidates == r.candidates
  {
  }

  lemma ResolveAdvancesCandidates(r: Row, alert: bool, first: string, ws: Time, we: Time, now: Time)
    requires ResolveByScan(r, alert, first, ws, we, now).Some?
    ensures CandidatesAdvance(r.candidates, ResolveByScan(r, alert, first, ws, we, now).value.candidates)
  {
    ResolvedCandidates(r, alert, first, ws, we, now);
    ConflictAdvances(r.candidates);
    if first in r.candidates && MarkRefundIdentified(r, ScanIdentification(r, first, alert), now).Some? {
      IdentifyKeepsCandidates(r, ScanIdentification(r, first, alert), now);
      UniqueLinkAdvances(r, MarkRefundIdentified(r, ScanIdentification(r, first, alert), now).value, first);
    }
  }

  lemma SightingAdvances(r: Row, account: string, o: Sighting, now: Time)
    requires Sound(r) && Observe(r, account, o, now).Some?
    ensures Advances(r, Observe(r, account, o, now).value.row)
  {
    ObservationShape(r, account, o, now);
    ObserveAdvancesCandidates(r, account, o, now);
    ObservedAsAdvances(r, Observe(r, account, o, now).value.row, IdentificationOf(o), now);
  }

  lemma AnswerAdvances(r: Row, i: nat, id: string, status: Option<RefundStatus>, now: Time)
    requires Sound(r) && RecordIdentified(r, i, id, status, now).Some?
    ensures Advances(r, RecordIdentified(r, i, id, status, now).value)
  {
    var input := Identification(id, status, false, None);
    IdentifyAdvances(r, input, now);
    var q := MarkRefundIdentified(r, input, now).value;
    var l := LinkCandidateIfAny(q, id, ExactLinked);
    LinkCandidateAdvances(q, id);
    FinishAdvances(l, i, Completed);
    AdvancesIsTransitive(r, q, l);
    AdvancesIsTransitive(r, l, RecordIdentified(r, i, id, status, now).value);
  }

  lemma LinkCandidateAdvances(r: Row, id: string)
    ensures Advances(r, LinkCandidateIfAny(r, id, ExactLinked))
  {
  }

  lemma FinishAdvances(r: Row, i: nat, state: AttemptState)
    requires FinishExecutionAttempt(r, i, state).Some?
    ensures Advances(r, FinishExecutionAttempt(r, i, state).value)
  {
  }

  /** Transactions that never write an observation. */
  predicate Plain(tx: RowTx) {
    !tx.TxObserve? && !tx.TxResolve? && !tx.TxIdentified? && !tx.TxRefresh?
  }

  lemma AttemptTxAdvances(r: Row, tx: RowTx)
    requires Sound(r) && (tx.TxCross? || tx.TxRetryable? || tx.TxAmbiguous? || tx.TxTerminalAttempt?) && Try(r, tx).Some?
    ensures Advances(r, Try(r, tx).value)
  {
    if tx.TxCross? {
      CrossKeepsSound(r, tx.account, tx.key);
    }
  }

  lemma RequestTxAdvances(r: Row, tx: RowTx)
    requires Sound(r) && Plain(tx) && Try(r, tx).Some?
    requires !tx.TxCross? && !tx.TxRetryable? && !tx.TxAmbiguous? && !tx.TxTerminalAttempt?
    ensures Advances(r, Try(r, tx).value)
  {
  }

  lemma PlainTxAdvances(r: Row, tx: RowTx)
    requires Sound(r) && Plain(tx) && Try(r, tx).Some?
    ensures Advances(r, Try(r, tx).value)
  {
    if tx.TxCross? || tx.TxRetryable? || tx.TxAmbiguous? || tx.TxTerminalAttempt? {
      AttemptTxAdvances(r, tx);
    } else {
      RequestTxAdvances(r, tx);
    }
  }

  lemma TxAdvances(r: Row, tx: RowTx)
    requires Sound(r) && Try(r, tx).Some?
    ensures Advances(r, Try(r, tx).value)
  {
    match tx
    case TxObserve(account, o, now) => SightingAdvances(r, account, o, now);
    case TxResolve(alert, first, ws, we, now) => ResolveAdvances(r, alert, first, ws, we, now);
    case TxIdentified(i, id, status, now) => AnswerAdvances(r, i, id, status, now);
    case TxRefresh(id, _, _, status, now) =>
      IdentifyAdvances(r, Identification(id, status, status.Some? && !Unsettled(status), None), now);
    case _ => PlainTxAdvances(r, tx);
  }

  /** Over every run, from any sound row, in any interleaving, nothing that
      only advances ever goes back. */
  lemma {:induction false} EveryRunAdvances(r: Row, txs: seq<RowTx>)
    requires Sound(r)
    ensures Advances(r, Run(r, txs))
  {
    if txs != [] {
      var before := Run(r, txs[..|txs| - 1]);
      EveryRunAdvances(r, txs[..|txs| - 1]);
      RunKeepsSound(r, txs[..|txs| - 1]);
      if Try(before, txs[|txs| - 1]).Some? {
        TxAdvances(before, txs[|txs| - 1]);
        AdvancesIsTransitive(r, before, Run(r, txs));
      }
    }
  }

  // -------------------------------- absence proofs between boundary crossings

  function At(r: Row, txs: seq<RowTx>, k: nat): Row
    requires k <= |txs|
  {
    Run(r, txs[..k])
  }

  lemma AtNext(r: Row, txs: seq<RowTx>, k: nat)
    requires k < |txs|
    ensures At(r, txs, k + 1) == Apply(At(r, txs, k), txs[k])
  {
    assert txs[..k + 1][..k] == txs[..k];
  }

  predicate CrossesAt(r: Row, txs: seq<RowTx>, k: nat) {
    k < |txs| && txs[k].TxCross? && Try(At(r, txs, k), txs[k]).Some?
  }

  /** A recorded proof that the possible effect is absent, after which the
      request may execute again: a definite refusal or an empty covering scan. */
  predicate ProvesAbsence(r: Row, tx: RowTx, r': Row) {
    && (tx.TxRetryable? || tx.TxResolve?)
    && r.effect == Possible && r'.status == Executing && r'.effect == AbsenceProven
  }

  predicate ProvesAbsenceAt(r: Row, txs: seq<RowTx>, k: nat) {
    k < |txs| && ProvesAbsence(At(r, txs, k), txs[k], At(r, txs, k + 1))
  }

  /** No boundary can be crossed from here without an absence proof first. */
  predicate Barred(r: Row) {
    if Running(r.status) then Effective(r.effect) else r.status != PendingApproval && r.status != Approved
  }

  lemma IdentifyKeepsBarred(r: Row, input: Identification, now: Time)
    requires Sound(r) && Barred(r) && MarkRefundIdentified(r, input, now).Some?
    ensures Barred(MarkRefundIdentified(r, input, now).value)
  {
  }

  lemma ObservedAsKeepsBarred(r: Row, r': Row, input: Identification, now: Time)
    requires Sound(r) && Barred(r) && ObservedAs(r, r', input, now)
    ensures Barred(r')
  {
    if r' != r.(candidates := r'.candidates) && r' != Diverted(r, now).(candidates := r'.candidates) {
      IdentifyKeepsBarred(r, input, now);
    }
  }

  lemma SightingKeepsBarred(r: Row, account: string, o: Sighting, now: Time)
    requires Sound(r) && Barred(r) && Observe(r, account, o, now).Some?
    ensures Barred(Observe(r, account, o, now).value.row)
  {
    ObservationShape(r, account, o, now);
    ObservedAsKeepsBarred(r, Observe(r, account, o, now).value.row, IdentificationOf(o), now);
  }

  lemma ResolveKeepsBarred(r: Row, tx: RowTx)
    requires Sound(r) && Barred(r) && tx.TxResolve? && Try(r, tx).Some?
    ensures Barred(Try(r, tx).value) || ProvesAbsence(r, tx, Try(r, tx).value)
  {
    var r' := Try(r, tx).value;
    ResolutionShape(r, tx.unresolvedAlert, tx.first, tx.windowStart, tx.windowEnd, tx.now);
    if tx.first in r.candidates && ObservedAs(r, r', ScanIdentification(r, tx.first, tx.unresolvedAlert), tx.now) {
      ObservedAsKeepsBarred(r, r', ScanIdentification(r, tx.first, tx.unresolvedAlert), tx.now);
    }
  }

  lemma PlainTxKeepsBarred(r: Row, tx: RowTx)
    requires Sound(r) && Barred(r) && Plain(tx) && Try(r, tx).Some?
    ensures Barred(Try(r, tx).value) || ProvesAbsence(r, tx, Try(r, tx).value)
  {
  }

  lemma BarredUntilProof(r: Row, tx: RowTx)
    requires Sound(r) && Barred(r) && Try(r, tx).Some?
    ensures Barred(Try(r, tx).value) || ProvesAbsence(r, tx, Try(r, tx).value)
  {
    match tx
    case TxObserve(account, o, now) => SightingKeepsBarred(r, account, o, now);
    case TxResolve(_, _, _, _, _) => ResolveKeepsBarred(r, tx);
    case TxIdentified(i, id, status, now) => IdentifyKeepsBarred(r, Identification(id, status, false, None), now);
    case TxRefresh(id, _, _, status, now) =>
      IdentifyKeepsBarred(r, Identification(id, status, status.Some? && !Unsettled(status), None), now);
    case _ => PlainTxKeepsBarred(r, tx);
  }

  lemma CrossingBars(r: Row, tx: RowTx)
    requires tx.TxCross? && Try(r, tx).Some?
    ensures Barred(Try(r, tx).value) && !Barred(r)
  {
  }

  lemma BarredStep(r: Row, txs: seq<RowTx>, k: nat)
    requires Sound(r) && k < |txs| && Barred(At(r, txs, k))
    ensures Barred(At(r, txs, k + 1)) || ProvesAbsenceAt(r, txs, k)
  {
    RunKeepsSound(r, txs[..k]);
    AtNext(r, txs, k);
    if Try(At(r, txs, k), txs[k]).Some? {
      BarredUntilProof(At(r, txs, k), txs[k]);
    }
  }

  lemma CrossingBarsNext(r: Row, txs: seq<RowTx>, k: nat)
    requires CrossesAt(r, txs, k)
    ensures Barred(At(r, txs, k + 1))
  {
    AtNext(r, txs, k);
    CrossingBars(At(r, txs, k), txs[k]);
  }

  lemma {:induction false} BarredOrProven(r: Row, txs: seq<RowTx>, i: nat, j: nat)
    requires Sound(r) && CrossesAt(r, txs, i) && i < j <= |txs|
    ensures Barred(At(r, txs, j)) || exists k | i < k < j :: ProvesAbsenceAt(r, txs, k)
  {
    if j == i + 1 {
      CrossingBarsNext(r, txs, i);
    } else {
      BarredOrProven(r, txs, i, j - 1);
      if Barred(At(r, txs, j - 1)) {
        BarredStep(r, txs, j - 1);
      }
    }
  }

  /** Between any two crossings of the effect boundary of one request, in any
      interleaved run, lies a recorded proof that the first had no effect. */
  lemma CrossingsAreSeparatedByAbsenceProof(r: Row, txs: seq<RowTx>, i: nat, j: nat)
    requires Sound(r) && i < j && CrossesAt(r, txs, i) && CrossesAt(r, txs, j)
    ensures exists k | i < k < j :: ProvesAbsenceAt(r, txs, k)
  {
    BarredOrProven(r, txs, i, j);
    CrossingBars(At(r, txs, j), txs[j]);
  }

  // --------------------------------------------------- the refresh lane

  /** Rows the linked-refund lane revisits. */
  predicate RefreshTarget(r: Row) {
    && LinkOf(r).Some?
    && r.status in {Executing, ReconciliationRequired, Succeeded}
    && !AbsenceProving(RefundStatusOf(r))
  }

  /** A link whose refund is still open although the request is closed. */
  predicate Abandoned(r: Row) {
    LinkOf(r).Some? && Unsettled(RefundStatusOf(r)) && !RefreshTarget(r)
  }

  /** A first link to a still open refund, written after the request was closed
      as absent: by the late answer of an attempt nobody finished, or by a scan
      that resolves a single candidate seen before. */
  predicate LateLink(r: Row, tx: RowTx) {
    && r.status == FailedTerminal && r.execution.Some? && LinkOf(r).None?
    && match tx
       case TxIdentified(i, id, status, _) =>
         i < |AttemptsOf(r)| && AttemptsOf(r)[i].state == Started && IsRefundId(id) && Unsettled(status)
       case TxResolve(_, first, windowStart, windowEnd, _) =>
         && ScanCovers(r, windowStart, windowEnd) && IsRefundId(first)
         && first in r.candidates && |r.candidates| == 1
         && LinkableLate(r.candidates[first])
       case _ => false
  }

  predicate LinkableLate(c: Candidate) {
    && c.evidence == EvidenceAbsent && c.lastSeenWindowEnd.Some? && c.state != CandidateConflict
    && Unsettled(c.status)
  }

  /** Identification abandons exactly when it writes a first open link to a
      request closed as absent. */
  lemma IdentifyAbandonsIff(r: Row, input: Identification, now: Time)
    requires Sound(r) && !Abandoned(r)
    ensures MarkRefundIdentified(r, input, now).Some? ==>
              (Abandoned(MarkRefundIdentified(r, input, now).value) <==>
                 r.status == FailedTerminal && LinkOf(r).None? && Unsettled(input.status))
    ensures r.status == FailedTerminal && r.execution.Some? && LinkOf(r).None? ==>
              (MarkRefundIdentified(r, input, now).Some? <==> IsRefundId(input.refundId))
  {
  }

  /** Candidates, attempt states and diversions do not abandon. */
  lemma AbandonedFrame(r: Row, r': Row)
    requires r'.status == r.status && LinkOf(r') == LinkOf(r) && RefundStatusOf(r') == RefundStatusOf(r)
    ensures Abandoned(r') == Abandoned(r)
  {
  }

  lemma AnswerAbandonsIff(r: Row, i: nat, id: string, status: Option<RefundStatus>, now: Time)
    requires Sound(r) && !Abandoned(r)
    ensures Abandoned(Apply(r, TxIdentified(i, id, status, now))) <==> LateLink(r, TxIdentified(i, id, status, now))
  {
    var input := Identification(id, status, false, None);
    IdentifyAbandonsIff(r, input, now);
    var o := MarkRefundIdentified(r, input, now);
    if o.Some? {
      IdentifyAdvancesExecution(r, input, now);
      var linked := LinkCandidateIfAny(o.value, id, ExactLinked);
      AbandonedFrame(o.value, linked);
      assert AttemptsOf(linked) == AttemptsOf(r);
      var f := FinishExecutionAttempt(linked, i, Completed);
      if f.Some? {
        AbandonedFrame(linked, f.value);
      }
    }
  }

  lemma RefreshAbandonsNothing(r: Row, id: string, environment: Environment, t: RefundTuple, status: Option<RefundStatus>, now: Time)
    requires Sound(r) && !Abandoned(r)
    ensures !Abandoned(Apply(r, TxRefresh(id, environment, t, status, now)))
  {
    IdentifyAbandonsIff(r, Identification(id, status, status.Some? && !Unsettled(status), None), now);
  }

  /** What a resolution does to a request that is not running. */
  lemma ClosedResolutionShape(r: Row, alert: bool, first: string, ws: Time, we: Time, now: Time)
    requires Sound(r) && r.status == FailedTerminal && r.execution.Some? && LinkOf(r).None?
    ensures var o := ResolveByScan(r, alert, first, ws, we, now);
            var links := ScanCovers(r, ws, we) && first in r.candidates && |r.candidates| == 1
                         && r.candidates[first].evidence == EvidenceAbsent && r.candidates[first].lastSeenWindowEnd.Some?
                         && r.candidates[first].state != CandidateConflict;
            if links then
              var m := MarkRefundIdentified(r, ScanIdentification(r, first, alert), now);
              o == if m.None? then None else Some(LinkCandidateIfAny(m.value, first, UniqueLinked))
            else o.None? || o == Some(r.(candidates := o.value.candidates))
  {
    if r.candidates != map[] && first in r.candidates {
      SingletonCount(r.candidates, first);
    }
  }

  lemma SingletonCount(m: map<string, Candidate>, k: string)
    requires k in m
    ensures |m| >= 1
  {
    assert |m.Keys| >= 1 by {
      assert m.Keys == {k} + (m.Keys - {k});
    }
    assert |m| == |m.Keys|;
  }

  lemma ClosedResolutionAbandonsIff(r: Row, alert: bool, first: string, ws: Time, we: Time, now: Time)
    requires Sound(r) && !Abandoned(r) && r.status == FailedTerminal && r.execution.Some? && LinkOf(r).None?
    ensures Abandoned(Apply(r, TxResolve(alert, first, ws, we, now))) <==> LateLink(r, TxResolve(alert, first, ws, we, now))
  {
    ClosedResolutionShape(r, alert, first, ws, we, now);
    if first in r.candidates {
      var input := ScanIdentification(r, first, alert);
      IdentifyAbandonsIff(r, input, now);
      var m := MarkRefundIdentified(r, input, now);
      if m.Some? {
        AbandonedFrame(m.value, LinkCandidateIfAny(m.value, first, UniqueLinked));
      }
    }
    var o := ResolveByScan(r, alert, first, ws, we, now);
    if o.Some? && o == Some(r.(candidates := o.value.candidates)) {
      AbandonedFrame(r, o.value);
    }
  }

  /** An observation of a request that is not closed, or already linked. */
  lemma ObservedAsAbandonsNothing(r: Row, r': Row, input: Identification, now: Time)
    requires Sound(r) && !Abandoned(r) && ObservedAs(r, r', input, now)
    requires r.status != FailedTerminal || LinkOf(r).Some? || LinkOf(r') == LinkOf(r)
    ensures !Abandoned(r')
  {
    IdentifyAbandonsIff(r, input, now);
    if r' == r.(candidates := r'.candidates) {
      AbandonedFrame(r, r');
    }
  }

  lemma OpenResolutionAbandonsNothing(r: Row, alert: bool, first: string, ws: Time, we: Time, now: Time)
    requires Sound(r) && !Abandoned(r) && (r.status != FailedTerminal || r.execution.None? || LinkOf(r).Some?)
    ensures !Abandoned(Apply(r, TxResolve(alert, first, ws, we, now)))
  {
    var o := ResolveByScan(r, alert, first, ws, we, now);
    if o.Some? && r.execution.Some? && LinkOf(r).None? {
      ResolutionShape(r, alert, first, ws, we, now);
      if first in r.candidates && ObservedAs(r, o.value, ScanIdentification(r, first, alert), now) {
        ObservedAsAbandonsNothing(r, o.value, ScanIdentification(r, first, alert), now);
      }
    }
  }

  /** Sightings never write the first link of a request that is not running. */
  lemma ClosedSightingWritesNoLink(r: Row, account: string, o: Sighting, now: Time)
    requires r.status == FailedTerminal && LinkOf(r).None? && Observe(r, account, o, now).Some?
    ensures LinkOf(Observe(r, account, o, now).value.row) == LinkOf(r)
  {
  }

  lemma SightingAbandonsNothing(r: Row, account: string, o: Sighting, now: Time)
    requires Sound(r) && !Abandoned(r)
    ensures !Abandoned(Apply(r, TxObserve(account, o, now)))
  {
    if Observe(r, account, o, now).Some? {
      ObservationShape(r, account, o, now);
      if r.status == FailedTerminal && LinkOf(r).None? {
        ClosedSightingWritesNoLink(r, account, o, now);
      }
      ObservedAsAbandonsNothing(r, Observe(r, account, o, now).value.row, IdentificationOf(o), now);
    }
  }

  lemma PlainTxAbandonsNothing(r: Row, tx: RowTx)
    requires Sound(r) && !Abandoned(r) && Plain(tx) && Try(r, tx).Some?
    ensures !Abandoned(Try(r, tx).value) && LinkOf(Try(r, tx).value) == LinkOf(r)
  {
  }

  /** An open link stops being revisited exactly when the transaction that writes
      it meets a request already closed as absent. */
  lemma OnlyLateLinksAreAbandoned(r: Row, tx: RowTx)
    requires Sound(r) && !Abandoned(r)
    ensures Abandoned(Apply(r, tx)) <==> LateLink(r, tx)
  {
    match tx
    case TxObserve(account, o, now) => SightingAbandonsNothing(r, account, o, now);
    case TxResolve(alert, first, ws, we, now) =>
      if r.status == FailedTerminal && r.execution.Some? && LinkOf(r).None? {
        ClosedResolutionAbandonsIff(r, alert, first, ws, we, now);
      } else {
        OpenResolutionAbandonsNothing(r, alert, first, ws, we, now);
      }
    case TxIdentified(i, id, status, now) => AnswerAbandonsIff(r, i, id, status, now);
    case TxRefresh(id, environment, t, status, now) => RefreshAbandonsNothing(r, id, environment, t, status, now);
    case _ =>
      if Try(r, tx).Some? {
        PlainTxAbandonsNothing(r, tx);
      }
  }

  /** No transaction of this run meets its row as a late link. */
  predicate NoLateLinks(r: Row, txs: seq<RowTx>) {
    txs == []
    || (NoLateLinks(r, txs[..|txs| - 1]) && !LateLink(Run(r, txs[..|txs| - 1]), txs[|txs| - 1]))
  }

  /** Without a late first link, every linked refund that is still open stays a
      refresh target through every run; the first late one abandons its refund. */
  lemma {:induction false} OpenLinksStayRefreshTargets(r: Row, txs: seq<RowTx>, next: RowTx)
    requires Sound(r) && !Abandoned(r) && NoLateLinks(r, txs)
    ensures !Abandoned(Run(r, txs))
    ensures Abandoned(Apply(Run(r, txs), next)) <==> LateLink(Run(r, txs), next)
  {
    if txs != [] {
      OpenLinksStayRefreshTargets(r, txs[..|txs| - 1], txs[|txs| - 1]);
    }
    RunKeepsSound(r, txs);
    OnlyLateLinksAreAbandoned(Run(r, txs), next);
  }
}
