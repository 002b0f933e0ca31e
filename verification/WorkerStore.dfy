/** The store of one tenant as it runs: guarded UPDATE statements on rows held
    in place, and transactions that put everything back when they throw. Each
    method is proved against the specification functions of Tenant and
    RefundRow, over which the theorems are stated. */
module WorkerStore {
  import opened Prelude
  import opened Domain
  import opened Observation
  import opened Execution
  import opened Attestation
  import opened RefundRow
  import opened RowInvariant
  import opened RowTheorems
  import opened RowOutcomes
  import opened Tenant
  import opened TenantTheorems
  import opened ScanOutcomes

  /** A guarded UPDATE of one row: it wrote what `o` says, or matched nothing. */
  predicate Wrote(before: map<string, Row>, after: map<string, Row>, id: string, o: Option<Row>, ok: bool) {
    && (ok <==> o.Some?)
    && after == if ok then before[id := o.value] else before
  }

  // ------------------------------------------ what a guarded update means

  /** One transition the domain tables allow, counted by one version, after which
      the guard still follows the release policy and nothing else has moved. */
  predicate LegalUpdate(r: Row, r': Row) {
    && Legal(PointOf(r), PointOf(r'), r, r', None)
    && StatusFits(r') && r'.version == r.version + 1
    && SameRequest(r, r') && r'.execution == r.execution && r'.candidates == r.candidates
  }

  datatype Statement =
    | Claiming(now: Time) | Diverting(now: Time) | Resuming(now: Time) | MakingPossible | ProvingAbsence
    | ProvingAbsenceExecuting | FailingTerminally(now: Time)

  function Executes(r: Row, s: Statement): Option<Row> {
    match s
    case Claiming(now) => ClaimExecution(r, now)
    case Diverting(now) => MarkReconciliationRequired(r, now)
    case Resuming(now) => ResumeExecutionAfterAbsence(r, now)
    case MakingPossible => MarkEffectPossible(r)
    case ProvingAbsence => MarkAbsenceProven(r)
    case ProvingAbsenceExecuting => MarkCertainAbsenceWhileExecuting(r)
    case FailingTerminally(now) => MarkTerminalFailureAfterAbsence(r, now)
  }

  /** Every single-row statement of the repository, whenever its guard lets it
      write a sound row, is one legal transition. */
  lemma StatementIsOneLegalTransition(r: Row, s: Statement)
    requires Sound(r) && Executes(r, s).Some?
    ensures LegalUpdate(r, Executes(r, s).value)
  {
  }

  /** On a sound row the statements of the two absence proofs exclude each other,
      and none of the seven applies to a closed request. */
  lemma StatementsNeedAnOpenRequest(r: Row, s: Statement)
    requires Sound(r) && Executes(r, s).Some?
    ensures r.guardReleasedAt.None? && r.status in {Approved, Executing, ReconciliationRequired}
    ensures !(Executes(r, ProvingAbsence).Some? && Executes(r, ProvingAbsenceExecuting).Some?)
  {
  }

  /** An attempt is finished once: a second finish of it fails, and every other
      attempt and the rest of the row keep their state. */
  lemma AttemptFinishesOnce(r: Row, i: nat, state: AttemptState, again: AttemptState, j: nat)
    requires FinishExecutionAttempt(r, i, state).Some? && state != Started && j < |AttemptsOf(r)|
    ensures var r' := FinishExecutionAttempt(r, i, state).value;
            && FinishExecutionAttempt(r', i, again).None?
            && |AttemptsOf(r')| == |AttemptsOf(r)| && AttemptsOf(r')[j].number == AttemptsOf(r)[j].number
            && (j != i ==> AttemptsOf(r')[j] == AttemptsOf(r)[j])
            && r' == r.(execution := r'.execution) && LinkOf(r') == LinkOf(r)
  {
  }

  /** Linking a candidate never takes its state back, repeats without effect and
      leaves the other candidates alone. */
  lemma LinkingNeverDowngrades(r: Row, refundId: string, state: CandidateState)
    requires state == UniqueLinked || state == ExactLinked
    ensures var r' := LinkCandidateIfAny(r, refundId, state);
            && CandidatesAdvance(r.candidates, r'.candidates)
            && LinkCandidateIfAny(r', refundId, state) == r'
            && r' == r.(candidates := r'.candidates) && r'.candidates.Keys == r.candidates.Keys
            && (forall c | c in r.candidates && c != refundId :: r'.candidates[c] == r.candidates[c])
            && (refundId in r.candidates ==> r'.candidates[refundId].state in {state, ExactLinked})
  {
  }

  // --------------------------------------------- the three settling updates

  predicate Unstarted(r: Row) {
    (r.status == PendingApproval || r.status == Approved) && r.effect == NotStarted && r.guardReleasedAt.None?
  }

  predicate WithoutEffect(r: Row) {
    r.status == Executing && HasCertainAbsenceOfEffect(r.effect) && r.guardReleasedAt.None?
  }

  predicate WithEffect(r: Row) {
    r.status == Executing && Effective(r.effect) && r.guardReleasedAt.None?
  }

  function IdsWhere(rows: map<string, Row>, scope: set<string>, where: Row -> bool): set<string> {
    set id | id in rows && id in scope && where(rows[id])
  }

  function Staled(r: Row, now: Time): Row {
    if Unstarted(r) then Terminate(r.(effect := AbsenceProven), Stale, now) else r
  }

  function Failed(r: Row, now: Time): Row {
    if WithoutEffect(r) then Terminate(r.(effect := AbsenceProven), FailedTerminal, now) else r
  }

  function Reconciled(r: Row, now: Time): Row {
    if WithEffect(r) then EnterReconciliation(r, now) else r
  }

  function StaleAll(rows: map<string, Row>, scope: set<string>, now: Time): map<string, Row> {
    map id | id in rows :: if id in scope then Staled(rows[id], now) else rows[id]
  }

  function FailAll(rows: map<string, Row>, scope: set<string>, now: Time): map<string, Row> {
    map id | id in rows :: if id in scope then Failed(rows[id], now) else rows[id]
  }

  function ReconcileAll(rows: map<string, Row>, scope: set<string>, now: Time): map<string, Row> {
    map id | id in rows :: if id in scope then Reconciled(rows[id], now) else rows[id]
  }

  function SettleAll(rows: map<string, Row>, scope: set<string>, now: Time): map<string, Row> {
    map id | id in rows :: if id in scope then Settle(rows[id], now) else rows[id]
  }

  /** The updates do not feed each other, and together they settle the rows. */
  lemma StalingKeepsOthers(rows: map<string, Row>, scope: set<string>, now: Time)
    ensures IdsWhere(StaleAll(rows, scope, now), scope, WithoutEffect) == IdsWhere(rows, scope, WithoutEffect)
    ensures IdsWhere(StaleAll(rows, scope, now), scope, WithEffect) == IdsWhere(rows, scope, WithEffect)
  {
  }

  lemma FailingKeepsOthers(rows: map<string, Row>, scope: set<string>, now: Time)
    ensures IdsWhere(FailAll(rows, scope, now), scope, WithEffect) == IdsWhere(rows, scope, WithEffect)
  {
  }

  lemma SettledInThree(r: Row, now: Time)
    ensures Reconciled(Failed(Staled(r, now), now), now) == Settle(r, now)
  {
  }

  lemma AllSettledInThree(rows: map<string, Row>, scope: set<string>, now: Time)
    ensures ReconcileAll(FailAll(StaleAll(rows, scope, now), scope, now), scope, now) == SettleAll(rows, scope, now)
  {
    var last := ReconcileAll(FailAll(StaleAll(rows, scope, now), scope, now), scope, now);
    forall id | id in rows
      ensures last[id] == SettleAll(rows, scope, now)[id]
    {
      SettledInThree(rows[id], now);
    }
  }

  // -------------------------------------------------- replays and attempts

  lemma SettleCommutesWithExecution(r: Row, x: Option<Execution>, now: Time)
    ensures Settle(r.(execution := x), now) == Settle(r, now).(execution := x)
  {
  }

  /** Raising a replay alert and finishing the attempt commute: the alert
      settles rows but leaves executions alone. */
  lemma AlertCommutesWithExecution(db: Db, id: string, x: Option<Execution>, inst: string, refundId: string, a: Alert, now: Time)
    requires id in db.rows && ObserveExternalRefund(db, inst, refundId, a, now).Some?
    ensures var db' := ObserveExternalRefund(db, inst, refundId, a, now).value;
            && id in db'.rows && db'.rows[id].execution == db.rows[id].execution
            && ObserveExternalRefund(SetRow(db, id, db.rows[id].(execution := x)), inst, refundId, a, now)
               == Some(SetRow(db', id, db'.rows[id].(execution := x)))
  {
    var db' := ObserveExternalRefund(db, inst, refundId, a, now).value;
    var other := ObserveExternalRefund(SetRow(db, id, db.rows[id].(execution := x)), inst, refundId, a, now).value;
    SettleCommutesWithExecution(db.rows[id], x, now);
    assert other.rows == SetRow(db', id, db'.rows[id].(execution := x)).rows;
  }

  lemma {:induction false} ReplaysCommuteWithExecution(
    db: Db, id: string, x: Option<Execution>, inst: string, environment: Environment, candidates: map<string, Candidate>,
    listing: seq<string>, now: Time)
    requires id in db.rows
    ensures var o := RaiseReplays(db, inst, environment, candidates, listing, now);
            var o' := RaiseReplays(SetRow(db, id, db.rows[id].(execution := x)), inst, environment, candidates, listing, now);
            && (o.Some? ==> id in o.value.rows && o.value.rows[id].execution == db.rows[id].execution)
            && o' == (if o.None? then None else Some(SetRow(o.value, id, o.value.rows[id].(execution := x))))
    decreases |listing|
  {
    if listing != [] && listing[0] in candidates {
      var a := ReplayAlert(environment, candidates[listing[0]]);
      var next := ObserveExternalRefund(db, inst, listing[0], a, now);
      if next.Some? {
        AlertCommutesWithExecution(db, id, x, inst, listing[0], a, now);
        ReplaysCommuteWithExecution(next.value, id, x, inst, environment, candidates, listing[1..], now);
      }
    }
  }

  lemma {:induction false} ReplaysAppend(
    db: Db, inst: string, environment: Environment, candidates: map<string, Candidate>, done: seq<string>, next: string, now: Time)
    ensures RaiseReplays(db, inst, environment, candidates, done + [next], now)
            == match RaiseReplays(db, inst, environment, candidates, done, now)
               case None => None
               case Some(db') =>
                 if next !in candidates then None
                 else ObserveExternalRefund(db', inst, next, ReplayAlert(environment, candidates[next]), now)
    decreases |done|
  {
    var rest := done + [next];
    if done == [] {
      assert rest[0] == next && rest[1..] == [];
    } else {
      assert rest[0] == done[0] && rest[1..] == done[1..] + [next];
      if done[0] in candidates {
        var o := ObserveExternalRefund(db, inst, done[0], ReplayAlert(environment, candidates[done[0]]), now);
        if o.Some? {
          ReplaysAppend(o.value, inst, environment, candidates, done[1..], next, now);
        }
      }
    }
  }

  lemma {:induction false} ReplaysStop(
    db: Db, inst: string, environment: Environment, candidates: map<string, Candidate>, done: seq<string>, rest: seq<string>, now: Time)
    requires RaiseReplays(db, inst, environment, candidates, done, now).None?
    ensures RaiseReplays(db, inst, environment, candidates, done + rest, now).None?
    decreases |done|
  {
    if done != [] && done[0] in candidates {
      assert (done + rest)[0] == done[0] && (done + rest)[1..] == done[1..] + rest;
      var o := ObserveExternalRefund(db, inst, done[0], ReplayAlert(environment, candidates[done[0]]), now);
      if o.Some? {
        ReplaysStop(o.value, inst, environment, candidates, done[1..], rest, now);
      }
    } else if done != [] {
      assert (done + rest)[0] == done[0];
    }
  }

  /** The specification finishes the attempt before raising the replays, the
      store afterwards: the result is the same. */
  lemma AnswerOrderIsImmaterial(db: Db, id: string, attempt: nat, others: seq<string>, now: Time)
    requires id in db.rows
    ensures var r := db.rows[id];
            var o := RaiseReplays(db, r.snap.installationId, r.snap.environment, r.candidates, others, now);
            && (o.None? ==> AnswerSettled(db, id, attempt, others, now).None?)
            && (o.Some? ==>
                  && id in o.value.rows
                  && match RefundRow.FinishExecutionAttempt(o.value.rows[id], attempt, Completed)
                     case None => AnswerSettled(db, id, attempt, others, now).None?
                     case Some(r') => AnswerSettled(db, id, attempt, others, now) == Some(SetRow(o.value, id, r')))
  {
    var r := db.rows[id];
    var f := RefundRow.FinishExecutionAttempt(r, attempt, Completed);
    var x := if f.Some? then f.value.execution else r.execution;
    ReplaysCommuteWithExecution(db, id, x, r.snap.installationId, r.snap.environment, r.candidates, others, now);
    assert f.Some? ==> f.value == r.(execution := x);
  }

  // ------------------------------------------------- verdicts of a scan

  datatype Verdict = Skipped | Resolved | Conflicting | Held

  /** What the resolution loop counts a selected request as. */
  function VerdictOf(r: Row, unresolvedAlert: bool, first: string, windowStart: Time, windowEnd: Time): Verdict {
    if r.execution.None? || LinkOf(r).Some? || !ScanCovers(r, windowStart, windowEnd) then Skipped
    else if r.candidates == map[] then (if unresolvedAlert then Conflicting else Resolved)
    else if first !in r.candidates then Skipped
    else
      var c := r.candidates[first];
      match DecideRefundCandidate(None, first, c.evidence, |r.candidates|, true, true)
      case ConflictDecision => Conflicting
      case LinkUnique =>
        if c.lastSeenWindowEnd.None? || c.state == CandidateConflict then Held
        else if unresolvedAlert then Conflicting else Resolved
      case _ => Held
  }

  /** What the counters mean: a covered ambiguity and a single unproven candidate
      are resolved, or conflicts when the payment has an unresolved alert. */
  lemma CountersMean(db: Db, scan: CompletedScan, id: string)
    requires RowsSound(db) && id in db.rows
    ensures var alert := AlertOn(db, scan.installationId, db.rows[id].snap);
            && (CoveredAmbiguity(db.rows[id], scan.windowStart, scan.windowEnd) && db.rows[id].snap.installationId == scan.installationId ==>
                  id in Counted(db, scan, if alert then Conflicting else Resolved))
            && (SingleCandidate(db.rows[id], FirstListed(scan, id), scan.windowStart, scan.windowEnd) && SeenNow(db.rows[id], scan) ==>
                  id in Counted(db, scan, if alert then Conflicting else Resolved))
  {
    if SingleCandidate(db.rows[id], FirstListed(scan, id), scan.windowStart, scan.windowEnd) {
      OneCandidate(db.rows[id].candidates, FirstListed(scan, id));
    }
  }

  /** A request the scan found ambiguous, covers and may resume. */
  predicate Resumable(db: Db, scan: CompletedScan, id: string) {
    && id in db.rows && CoveredAmbiguity(db.rows[id], scan.windowStart, scan.windowEnd)
    && db.rows[id].snap.installationId == scan.installationId && !AlertOn(db, scan.installationId, db.rows[id].snap)
  }

  // ----------------------------------------------------------- the class

  class TenantStore {
    var tenantActive: bool
    var liveEnabled: bool
    var installations: map<string, Installation>
    var users: map<string, User>
    var rows: map<string, Row>
    var alerts: map<(string, string), Alert>
    var signed: set<Payload>

    function Contents(): Db
      reads this
    {
      Db(tenantActive, liveEnabled, installations, users, rows, alerts, signed)
    }

    constructor (db: Db)
      ensures Contents() == db
    {
      tenantActive, liveEnabled, installations, users := db.tenantActive, db.liveEnabled, db.installations, db.users;
      rows, alerts, signed := db.rows, db.alerts, db.signed;
    }

    /** Undoes a transaction that threw. */
    method Rollback(db: Db)
      modifies this
      ensures Contents() == db
    {
      tenantActive, liveEnabled, installations, users := db.tenantActive, db.liveEnabled, db.installations, db.users;
      rows, alerts, signed := db.rows, db.alerts, db.signed;
    }

    // ------------------------------------------------ guarded statements

    method MarkReconciliationRequired(id: string, now: Time) returns (ok: bool)
      modifies this`rows
      ensures id in old(rows) ==> Wrote(old(rows), rows, id, RefundRow.MarkReconciliationRequired(old(rows)[id], now), ok)
      ensures id !in old(rows) ==> !ok && rows == old(rows)
      ensures ok && Sound(old(rows)[id]) ==> LegalUpdate(old(rows)[id], rows[id])
    {
      ok := id in rows && rows[id].status == Executing && rows[id].guardReleasedAt.None?;
      if ok {
        rows := rows[id := EnterReconciliation(rows[id], now)];
      }
    }

    method MarkAbsenceProven(id: string) returns (ok: bool)
      requires id in rows
      modifies this`rows
      ensures Wrote(old(rows), rows, id, RefundRow.MarkAbsenceProven(old(rows)[id]), ok)
      ensures ok && Sound(old(rows)[id]) ==> LegalUpdate(old(rows)[id], rows[id])
    {
      ok := rows[id].status == ReconciliationRequired && rows[id].effect == Possible;
      if ok {
        rows := rows[id := rows[id].(effect := AbsenceProven, version := rows[id].version + 1)];
      }
    }

    method ResumeExecutionAfterAbsence(id: string, now: Time) returns (ok: bool)
      requires id in rows
      modifies this`rows
      ensures Wrote(old(rows), rows, id, RefundRow.ResumeExecutionAfterAbsence(old(rows)[id], now), ok)
      ensures ok && Sound(old(rows)[id]) ==> LegalUpdate(old(rows)[id], rows[id])
    {
      ok := rows[id].status == ReconciliationRequired && rows[id].effect == AbsenceProven;
      if ok {
        rows := rows[id := rows[id].(status := Executing, executionStartedAt := Some(now), version := rows[id].version + 1)];
      }
    }

    method MarkCertainAbsenceWhileExecuting(id: string) returns (ok: bool)
      requires id in rows
      modifies this`rows
      ensures Wrote(old(rows), rows, id, RefundRow.MarkCertainAbsenceWhileExecuting(old(rows)[id]), ok)
      ensures ok && Sound(old(rows)[id]) ==> LegalUpdate(old(rows)[id], rows[id])
    {
      ok := rows[id].status == Executing && rows[id].effect == Possible;
      if ok {
        rows := rows[id := rows[id].(effect := AbsenceProven, version := rows[id].version + 1)];
      }
    }

    method MarkTerminalFailureAfterAbsence(id: string, now: Time) returns (ok: bool)
      requires id in rows
      modifies this`rows
      ensures Wrote(old(rows), rows, id, RefundRow.MarkTerminalFailureAfterAbsence(old(rows)[id], now), ok)
      ensures ok && Sound(old(rows)[id]) ==> LegalUpdate(old(rows)[id], rows[id])
    {
      ok := rows[id].status == Executing && HasCertainAbsenceOfEffect(rows[id].effect);
      if ok {
        rows := rows[id := Terminate(rows[id].(effect := AbsenceProven), FailedTerminal, now)];
      }
    }

    method FinishExecutionAttempt(id: string, attempt: nat, state: AttemptState) returns (ok: bool)
      requires id in rows
      modifies this`rows
      ensures Wrote(old(rows), rows, id, RefundRow.FinishExecutionAttempt(old(rows)[id], attempt, state), ok)
      ensures ok && state != Started ==> RefundRow.FinishExecutionAttempt(rows[id], attempt, state).None?
    {
      ok := rows[id].execution.Some? && attempt < |rows[id].execution.value.attempts|
            && rows[id].execution.value.attempts[attempt].state == Started;
      if ok {
        var x := rows[id].execution.value;
        x := x.(attempts := x.attempts[attempt := x.attempts[attempt].(state := state)]);
        rows := rows[id := rows[id].(execution := Some(x))];
      }
    }

    /** Stores an observation of the linked refund, then moves the request by the
        guarded update of its branch. A false result leaves a partial write that
        the caller rolls back. */
    method MarkRefundIdentified(id: string, input: Identification, now: Time) returns (ok: bool)
      requires id in rows
      modifies this`rows
      ensures ok <==> RefundRow.MarkRefundIdentified(old(rows)[id], input, now).Some?
      ensures ok ==> rows == old(rows)[id := RefundRow.MarkRefundIdentified(old(rows)[id], input, now).value]
      ensures Sound(old(rows)[id]) && Welcome(old(rows)[id], input) && Concludable(old(rows)[id], input) ==>
                && ok && Concluded(old(rows)[id], rows[id], input.status, now)
                && Stores(rows[id], input.refundId, input.status)
    {
      var r := rows[id];
      if Sound(r) && Welcome(r, input) && Concludable(r, input) {
        IdentifyConcludes(r, input, now);
      }
      if r.execution.None? {
        return false;
      }
      var x := r.execution.value;
      if x.refundId.Some? && x.refundId.value != input.refundId {
        return false;
      }
      if !ShouldApplyRefundObservation(Stored(x.refundStatus, x.lastEventAt), input.status, input.eventAt) {
        return true;
      }
      if !IsRefundId(input.refundId) {
        return false;
      }
      var previous := x.refundStatus;
      x := x.(refundId := Some(input.refundId), refundStatus := input.status);
      if input.eventAt.Some? {
        x := x.(lastEventAt := input.eventAt);
      }
      rows := rows[id := r.(execution := Some(x))];
      ok := ConvergeRequest(id, previous, input, now);
    }

    method ConvergeRequest(id: string, previous: Option<RefundStatus>, input: Identification, now: Time) returns (ok: bool)
      requires id in rows
      modifies this`rows
      ensures ok <==> ConvergeWorkflow(old(rows)[id], previous, input, now).Some?
      ensures ok ==> rows == old(rows)[id := ConvergeWorkflow(old(rows)[id], previous, input, now).value]
      ensures Concludable(old(rows)[id], input) && old(rows)[id].guardReleasedAt.None? ==>
                ok && Concluded(old(rows)[id], rows[id], input.status, now)
      ensures old(rows)[id].status == ReconciliationRequired && !input.resolve && old(rows)[id].guardReleasedAt.None? ==>
                ok && Preserved(old(rows)[id], rows[id])
    {
      var r := rows[id];
      if r.status == Succeeded && previous == Some(RefundSucceeded) && AbsenceProving(input.status) {
        ok := r.effect == Identified;
        if ok {
          rows := rows[id := r.(effect := AbsenceProven, status := FailedTerminal, version := r.version + 1)];
        }
        return;
      }
      if r.status != Executing && r.status != ReconciliationRequired {
        assert rows[id := r] == rows;
        return true;
      }
      if r.status == ReconciliationRequired && !input.resolve {
        if HasCertainAbsenceOfEffect(r.effect) {
          if r.guardReleasedAt.Some? {
            return false;
          }
          r := r.(effect := Possible, version := r.version + 1);
          rows := rows[id := r];
        }
        ok := Effective(r.effect) && r.guardReleasedAt.None?;
        if ok {
          rows := rows[id := r.(effect := Identified, version := r.version + 1)];
        }
        return;
      }
      ok := Effective(r.effect);
      if !ok {
        return;
      }
      match input.status
      case None =>
        rows := rows[id := EnterReconciliation(r.(effect := Identified), now)];
      case Some(RefundPending) | Some(RefundRequiresAction) =>
        rows := rows[id := r.(effect := Identified, version := r.version + 1)];
      case Some(RefundSucceeded) =>
        rows := rows[id := Terminate(r.(effect := Identified), Succeeded, now)];
      case Some(RefundFailed) | Some(RefundCanceled) =>
        rows := rows[id := Terminate(r.(effect := AbsenceProven), FailedTerminal, now)];
    }

    method LinkCandidate(id: string, refundId: string, state: CandidateState)
      requires id in rows
      modifies this`rows
      ensures rows == old(rows)[id := LinkCandidateIfAny(old(rows)[id], refundId, state)]
      ensures state == UniqueLinked || state == ExactLinked ==> CandidatesAdvance(old(rows)[id].candidates, rows[id].candidates)
    {
      var r := rows[id];
      if refundId in r.candidates && (state == ExactLinked || r.candidates[refundId].state != ExactLinked) {
        rows := rows[id := r.(candidates := r.candidates[refundId := r.candidates[refundId].(state := state)])];
      } else {
        assert rows[id := r] == rows;
      }
    }

    // ------------------------------------------------- worker outcomes

    /** Both updates of a refusal run; true when both matched. */
    method RecordRefusal(id: string, attempt: nat, state: AttemptState) returns (ok: bool)
      requires id in rows
      modifies this`rows
      ensures ok <==> RefundRow.RecordRefusal(old(rows)[id], attempt, state).Some?
      ensures ok ==> rows == old(rows)[id := RefundRow.RecordRefusal(old(rows)[id], attempt, state).value]
      ensures id in rows
    {
      var finished := FinishExecutionAttempt(id, attempt, state);
      var absence := MarkCertainAbsenceWhileExecuting(id);
      ok := finished && absence;
    }

    /** Both updates run, then the transaction throws unless both matched. */
    method RecordRetryableAttemptFailure(id: string, attempt: nat) returns (threw: bool)
      modifies this
      ensures threw <==> RecordOutcome(old(Contents()), id, TxRetryable(attempt)).None?
      ensures Contents() == OrSame(old(Contents()), RecordOutcome(old(Contents()), id, TxRetryable(attempt)))
    {
      if id !in rows {
        return true;
      }
      var before := Contents();
      var refused := RecordRefusal(id, attempt, RetryableFailure);
      threw := !refused;
      if threw {
        Rollback(before);
      }
    }

    method RecordAmbiguousAttemptFailure(id: string, attempt: nat, now: Time) returns (threw: bool)
      modifies this
      ensures threw <==> RecordOutcome(old(Contents()), id, TxAmbiguous(attempt, now)).None?
      ensures Contents() == OrSame(old(Contents()), RecordOutcome(old(Contents()), id, TxAmbiguous(attempt, now)))
    {
      if id !in rows {
        return true;
      }
      var before := Contents();
      var finished := FinishExecutionAttempt(id, attempt, AmbiguousFailure);
      var reconciliation := MarkReconciliationRequired(id, now);
      threw := !finished || !reconciliation;
      if threw {
        Rollback(before);
      }
    }

    method RecordTerminalAttemptWithoutEffect(id: string, attempt: nat, now: Time) returns (threw: bool)
      modifies this
      ensures threw <==> RecordOutcome(old(Contents()), id, TxTerminalAttempt(attempt, now)).None?
      ensures Contents() == OrSame(old(Contents()), RecordOutcome(old(Contents()), id, TxTerminalAttempt(attempt, now)))
    {
      if id !in rows {
        return true;
      }
      var before := Contents();
      var refused := RecordRefusal(id, attempt, TerminalFailure);
      var terminal := MarkTerminalFailureAfterAbsence(id, now);
      threw := !refused || !terminal;
      if threw {
        Rollback(before);
      }
    }

    /** Tolerates a request that has already failed. */
    method RecordTerminalWithoutEffect(id: string, now: Time) returns (threw: bool)
      modifies this
      ensures Contents() == OrSame(old(Contents()), RecordOutcome(old(Contents()), id, TxTerminal(now)))
      ensures threw <==> RecordOutcome(old(Contents()), id, TxTerminal(now)).None?
                         && (id !in old(rows) || old(rows)[id].status != FailedTerminal)
      ensures threw <==> id !in rows || rows[id].status != FailedTerminal
    {
      if id !in rows {
        return true;
      }
      var terminal := MarkTerminalFailureAfterAbsence(id, now);
      threw := !terminal && rows[id].status != FailedTerminal;
    }

    /** Tolerates a request that is already reconciling. */
    method RecordReconciliationRequired(id: string, now: Time) returns (threw: bool)
      modifies this
      ensures Contents() == OrSame(old(Contents()), RecordOutcome(old(Contents()), id, TxDivert(now)))
      ensures threw <==> RecordOutcome(old(Contents()), id, TxDivert(now)).None?
                         && (id !in old(rows) || old(rows)[id].status != ReconciliationRequired)
      ensures threw <==> id !in rows || rows[id].status != ReconciliationRequired
    {
      if id !in rows {
        return true;
      }
      var marked := MarkReconciliationRequired(id, now);
      threw := !marked && rows[id].status != ReconciliationRequired;
    }

    // ---------------------------------------------- bulk settlement

    method UpdateStale(scope: set<string>, now: Time) returns (count: nat)
      modifies this`rows
      ensures count == |IdsWhere(old(rows), scope, Unstarted)|
      ensures rows == StaleAll(old(rows), scope, now)
    {
      count := |IdsWhere(rows, scope, Unstarted)|;
      rows := map id | id in rows :: if id in scope then Staled(rows[id], now) else rows[id];
    }

    method UpdateFailed(scope: set<string>, now: Time) returns (count: nat)
      modifies this`rows
      ensures count == |IdsWhere(old(rows), scope, WithoutEffect)|
      ensures rows == FailAll(old(rows), scope, now)
    {
      count := |IdsWhere(rows, scope, WithoutEffect)|;
      rows := map id | id in rows :: if id in scope then Failed(rows[id], now) else rows[id];
    }

    method UpdateReconciling(scope: set<string>, now: Time) returns (count: nat)
      modifies this`rows
      ensures count == |IdsWhere(old(rows), scope, WithEffect)|
      ensures rows == ReconcileAll(old(rows), scope, now)
    {
      count := |IdsWhere(rows, scope, WithEffect)|;
      rows := map id | id in rows :: if id in scope then Reconciled(rows[id], now) else rows[id];
    }

    /** Three bulk updates whose counts are compared with the rows locked before:
        the comparison can never fail, and together they settle every request. */
    method SettleRequests(scope: set<string>, now: Time) returns (threw: bool)
      modifies this`rows
      ensures !threw
      ensures rows == SettleAll(old(rows), scope, now)
    {
      var staleCount := |IdsWhere(rows, scope, Unstarted)|;
      var terminalCount := |IdsWhere(rows, scope, WithoutEffect)|;
      var reconciliationCount := |IdsWhere(rows, scope, WithEffect)|;
      AllSettledInThree(rows, scope, now);
      StalingKeepsOthers(rows, scope, now);
      FailingKeepsOthers(StaleAll(rows, scope, now), scope, now);
      var stale := UpdateStale(scope, now);
      var terminal := UpdateFailed(scope, now);
      var reconciliation := UpdateReconciling(scope, now);
      threw := stale != staleCount || terminal != terminalCount || reconciliation != reconciliationCount;
    }

    method ApplyDeauthorization(installationId: string, eventId: string, createdAt: Time) returns (applied: bool)
      modifies this
      ensures applied <==> ApplyWebhookDeauthorization(old(Contents()), installationId, eventId, createdAt).Some?
      ensures Contents() == OrSame(old(Contents()), ApplyWebhookDeauthorization(old(Contents()), installationId, eventId, createdAt))
    {
      if installationId !in installations || installations[installationId].environment == Live
         || !DeauthorizationApplies(installations[installationId], eventId, createdAt) {
        return false;
      }
      var before := Contents();
      var i := installations[installationId];
      installations := installations[installationId := i.(active := false, lastLifecycle := Some(Lifecycle(eventId, Deauthorized, createdAt)))];
      tenantActive := false;
      var threw := SettleRequests(rows.Keys, createdAt);
      applied := !threw;
      assert rows == map id | id in before.rows :: Settle(before.rows[id], createdAt);
    }

    /** Records an external refund and settles the requests of its payment. */
    method RecordExternalRefund(installationId: string, refundId: string, a: Alert, now: Time) returns (threw: bool)
      modifies this`rows, this`alerts
      ensures threw <==> ObserveExternalRefund(old(Contents()), installationId, refundId, a, now).None?
      ensures Contents() == OrSame(old(Contents()), ObserveExternalRefund(old(Contents()), installationId, refundId, a, now))
    {
      if a.createdAt > now || installationId !in installations || installations[installationId].environment == Live
         || a.environment != installations[installationId].environment {
        return true;
      }
      if (installationId, refundId) in alerts && alerts[(installationId, refundId)] != a {
        return true;
      }
      alerts := alerts[(installationId, refundId) := a];
      var locked := set id | id in rows && OnPayment(rows[id].snap, installationId, a.environment, a.paymentKey);
      threw := SettleRequests(locked, now);
      assert rows == SettlePayment(old(rows), installationId, a.environment, a.paymentKey, now);
    }

    // ---------------------------------------------- execution and boundary

    /** Claims an approved request for execution. */
    method ClaimExecution(id: string, now: Time) returns (ok: bool)
      requires id in rows
      modifies this`rows
      ensures Wrote(old(rows), rows, id, RefundRow.ClaimExecution(old(rows)[id], now), ok)
      ensures ok && Sound(old(rows)[id]) ==> LegalUpdate(old(rows)[id], rows[id])
    {
      ok := rows[id].status == Approved && rows[id].effect == NotStarted && rows[id].guardReleasedAt.None?;
      if ok {
        rows := rows[id := rows[id].(status := Executing, executionStartedAt := Some(now), version := rows[id].version + 1)];
      }
    }

    /** Diverts a request if it is still executing under its guard. */
    method RequireReconciliation(id: string, now: Time)
      requires id in rows
      modifies this`rows
      ensures rows == old(rows)[id := Diverted(old(rows)[id], now)]
    {
      var marked := MarkReconciliationRequired(id, now);
      assert !marked ==> rows[id := rows[id]] == rows;
    }

    /** True when a record is handed to the worker. */
    method LoadExecution(id: string, key: string, now: Time) returns (loaded: bool)
      modifies this`rows
      ensures Contents() == LoadRefundExecution(old(Contents()), id, key, now)
      ensures loaded <==> HandedOut(Contents(), id, key)
    {
      if id !in rows || !HasActivePilotExecutionContext(Contents(), rows[id].snap) {
        return false;
      }
      if !ApprovalAttestationIsValid(Contents(), rows[id]) {
        if rows[id].effect == Possible {
          RequireReconciliation(id, now);
        }
        return false;
      }
      if rows[id].status == Approved && rows[id].effect == NotStarted {
        var claimed := ClaimExecution(id, now);
        if !claimed {
          return false;
        }
      }
      assert old(rows)[id := rows[id]] == rows;
      if !Loadable(Contents(), rows[id]) {
        return false;
      }
      if MustReconcile(rows[id], key) {
        RequireReconciliation(id, now);
        return false;
      }
      loaded := true;
    }

    /** The execution row is created before the effect is marked possible, and
        the attempt after; a throw undoes all three. */
    method PersistBoundary(id: string, key: string, now: Time) returns (decision: BoundaryDecision)
      modifies this
      ensures (Contents(), decision) == PersistEffectBoundary(old(Contents()), id, key, now)
    {
      if id !in rows {
        return NotExecutable;
      }
      var r := rows[id];
      if r.status != Executing {
        return if r.status == ReconciliationRequired then NeedsReconciliation else NotExecutable;
      }
      if !HasActivePilotExecutionContext(Contents(), r.snap) || r.guardReleasedAt.Some? {
        return NotExecutable;
      }
      if !ApprovalAttestationIsValid(Contents(), r) {
        if r.effect == Possible {
          RequireReconciliation(id, now);
          return NeedsReconciliation;
        }
        return NotExecutable;
      }
      if r.execution.Some? && r.execution.value.refundId.Some? {
        return AlreadyIdentified(r.execution.value.refundId.value);
      }
      if MustReconcile(r, key) {
        RequireReconciliation(id, now);
        return NeedsReconciliation;
      }
      if r.effect != NotStarted && r.effect != AbsenceProven {
        return NotExecutable;
      }
      decision := WriteAhead(id, installations[r.snap.installationId].stripeAccountId, key);
    }

    method EnsureExecutionRow(id: string, account: string, key: string)
      requires id in rows
      modifies this`rows
      ensures rows == old(rows)[id := old(rows)[id].(execution := Some(EnsureExecution(old(rows)[id], account, key)))]
    {
      if rows[id].execution.None? {
        rows := rows[id := rows[id].(execution := Some(Execution(key, ParamsOf(rows[id].snap, account), None, None, None, [])))];
      } else {
        assert rows[id := rows[id]] == rows;
      }
    }

    method MarkEffectPossible(id: string) returns (ok: bool)
      requires id in rows
      modifies this`rows
      ensures Wrote(old(rows), rows, id, RefundRow.MarkEffectPossible(old(rows)[id]), ok)
      ensures ok && Sound(old(rows)[id]) ==> LegalUpdate(old(rows)[id], rows[id])
    {
      ok := rows[id].status == Executing && HasCertainAbsenceOfEffect(rows[id].effect);
      if ok {
        rows := rows[id := rows[id].(effect := Possible, version := rows[id].version + 1)];
      }
    }

    method BeginExecutionAttempt(id: string) returns (attempt: nat)
      requires id in rows && rows[id].execution.Some?
      modifies this`rows
      ensures var x := old(rows)[id].execution.value;
              && attempt == |x.attempts|
              && rows == old(rows)[id := old(rows)[id].(execution :=
                           Some(x.(attempts := x.attempts + [Attempt(MaxNumber(x.attempts) + 1, Started)])))]
    {
      var x := rows[id].execution.value;
      attempt := |x.attempts|;
      var number := MaxNumber(x.attempts) + 1;
      rows := rows[id := rows[id].(execution := Some(x.(attempts := x.attempts + [Attempt(number, Started)])))];
    }

    method WriteAhead(id: string, account: string, key: string) returns (decision: BoundaryDecision)
      requires id in rows && rows[id].status == Executing && rows[id].guardReleasedAt.None? && LinkOf(rows[id]).None?
      requires HasCertainAbsenceOfEffect(rows[id].effect) && !MustReconcile(rows[id], key)
      modifies this
      ensures match CrossBoundary(old(rows)[id], account, key)
              case None => decision == BoundaryThrew && Contents() == old(Contents())
              case Some(r') => Contents() == SetRow(old(Contents()), id, r') && decision == Execute(|AttemptsOf(r')| - 1)
    {
      var before := Contents();
      EnsureExecutionRow(id, account, key);
      var x := rows[id].execution.value;
      if x.key != key || x.params != ParamsOf(rows[id].snap, account) {
        Rollback(before);
        return BoundaryThrew;
      }
      var marked := MarkEffectPossible(id);
      assert marked;
      var attempt := BeginExecutionAttempt(id);
      decision := Execute(attempt);
    }

    /** Raises a replay alert for each other candidate, in the listed order. */
    method RaiseReplayAlerts(
      installationId: string, environment: Environment, candidates: map<string, Candidate>, listing: seq<string>, now: Time)
      returns (threw: bool)
      modifies this`rows, this`alerts
      ensures threw <==> RaiseReplays(old(Contents()), installationId, environment, candidates, listing, now).None?
      ensures !threw ==> Some(Contents()) == RaiseReplays(old(Contents()), installationId, environment, candidates, listing, now)
    {
      var i := 0;
      ghost var start := Contents();
      while i < |listing|
        invariant i <= |listing|
        invariant RaiseReplays(start, installationId, environment, candidates, listing[..i], now) == Some(Contents())
      {
        ReplaysAppend(start, installationId, environment, candidates, listing[..i], listing[i], now);
        assert listing[..i] + [listing[i]] == listing[..i + 1];
        if listing[i] !in candidates {
          threw := true;
        } else {
          threw := RecordExternalRefund(installationId, listing[i], ReplayAlert(environment, candidates[listing[i]]), now);
        }
        if threw {
          ReplaysStop(start, installationId, environment, candidates, listing[..i + 1], listing[i + 1..], now);
          assert listing[..i + 1] + listing[i + 1..] == listing;
          return;
        }
        i := i + 1;
      }
      assert listing[..i] == listing;
      threw := false;
    }

    method IdentifyAndLink(id: string, refundId: string, status: Option<RefundStatus>, now: Time) returns (ok: bool)
      requires id in rows
      modifies this`rows
      ensures ok <==> RefundRow.IdentifyAndLink(old(rows)[id], refundId, status, now).Some?
      ensures ok ==> rows == old(rows)[id := RefundRow.IdentifyAndLink(old(rows)[id], refundId, status, now).value]
    {
      ok := MarkRefundIdentified(id, Identification(refundId, status, false, None), now);
      if ok {
        LinkCandidate(id, refundId, ExactLinked);
      }
    }

    /** Raises the replays, then finishes the attempt. */
    method SettleAnswer(id: string, attempt: nat, others: seq<string>, now: Time) returns (threw: bool)
      requires id in rows
      modifies this
      ensures threw <==> AnswerSettled(old(Contents()), id, attempt, others, now).None?
      ensures !threw ==> Some(Contents()) == AnswerSettled(old(Contents()), id, attempt, others, now)
    {
      var s, candidates := rows[id].snap, rows[id].candidates;
      AnswerOrderIsImmaterial(Contents(), id, attempt, others, now);
      threw := RaiseReplayAlerts(s.installationId, s.environment, candidates, others, now);
      if !threw {
        var finished := FinishExecutionAttempt(id, attempt, Completed);
        threw := !finished;
      }
    }

    /** Stripe's synchronous answer: identify, link the candidate, raise the
        replays, finish the attempt, in that order; a throw undoes everything. */
    method RecordIdentified(
      id: string, attempt: nat, key: string, refundId: string, status: Option<RefundStatus>, responseMatches: bool,
      others: seq<string>, now: Time) returns (threw: bool)
      modifies this
      ensures threw <==> RecordIdentifiedRefund(old(Contents()), id, attempt, key, refundId, status, responseMatches, others, now).None?
      ensures Contents() == OrSame(old(Contents()),
                RecordIdentifiedRefund(old(Contents()), id, attempt, key, refundId, status, responseMatches, others, now))
    {
      if id !in rows || rows[id].execution.None? || rows[id].execution.value.key != key {
        return true;
      }
      var before := Contents();
      var ok := IdentifyAndLink(id, refundId, if responseMatches then status else None, now);
      if !ok || !ListsOthers(rows[id].candidates, refundId, others) {
        Rollback(before);
        return true;
      }
      threw := SettleAnswer(id, attempt, others, now);
      if threw {
        Rollback(before);
      }
    }

    // ---------------------------------------------- observations

    /** Upserts the candidate, refuses a different tuple, merges the sighting and
        turns pending candidates into conflicts once there are several. */
    method RecordCorrelationCandidate(id: string, refundId: string, input: CandidateInput) returns (ok: bool)
      requires id in rows
      modifies this`rows
      ensures ok <==> RecordCandidate(old(rows)[id], refundId, input).Some?
      ensures ok ==> rows == old(rows)[id := RecordCandidate(old(rows)[id], refundId, input).value]
    {
      var candidates := rows[id].candidates;
      if refundId !in candidates {
        candidates := candidates[refundId := FreshCandidate(input)];
      }
      if candidates[refundId].tuple != input.tuple {
        return false;
      }
      candidates := candidates[refundId := MergeCandidate(candidates[refundId], input)];
      assert candidates == old(rows)[id].candidates[refundId := candidates[refundId]];
      if |candidates| > 1 {
        candidates := map c | c in candidates ::
          if candidates[c].state == CandidatePending then candidates[c].(state := CandidateConflict) else candidates[c];
      }
      rows := rows[id := rows[id].(candidates := candidates)];
      ok := true;
    }

    /** A proven sighting of a running request without a linked refund. */
    method ObserveUnlinkedRefund(id: string, o: Sighting, now: Time)
      returns (threw: bool, alert: Option<Classification>, replays: bool)
      requires id in rows
      modifies this`rows
      ensures threw <==> ObserveUnlinked(old(rows)[id], o, now).None?
      ensures !threw ==>
                var out := ObserveUnlinked(old(rows)[id], o, now).value;
                rows == old(rows)[id := out.row] && alert == out.alert && replays == out.replaysOthers
    {
      var evidence := EvidenceOf(rows[id], o.source);
      var decision := DecideRefundCandidate(None, o.refundId, evidence, Max(1, |rows[id].candidates|), false, false);
      alert, replays := None, decision == LinkExact;
      if decision == LinkExact {
        var identified := MarkRefundIdentified(id, IdentificationOf(o), now);
        if !identified {
          threw := true;
          return;
        }
        LinkCandidate(id, o.refundId, ExactLinked);
      } else {
        RequireReconciliation(id, now);
        if decision == ConflictDecision {
          alert := Some(if evidence == EvidenceMismatch then Tampered else ProofReplay);
        }
      }
      threw := false;
    }

    /** A proven sighting of the refund the request is linked to. */
    method ObserveKnownRefund(id: string, o: Sighting, now: Time) returns (threw: bool)
      requires id in rows && rows[id].execution.Some? && o.refundId in rows[id].candidates
      modifies this`rows
      ensures threw <==> ObserveLinked(old(rows)[id], o, now).None?
      ensures !threw ==>
                && id in rows && rows == old(rows)[id := rows[id]]
                && ObserveLinked(old(rows)[id], o, now) == Some(Observed(rows[id], None, false))
    {
      var r := rows[id];
      var handled := !ShouldApplyLinkedRefundObservation(
        Stored(r.execution.value.refundStatus, r.execution.value.lastEventAt), o.source, o.reported);
      var state := if r.candidates[o.refundId].state == UniqueLinked && EvidenceOf(r, o.source) != EvidenceExact then UniqueLinked else ExactLinked;
      LinkCandidate(id, o.refundId, state);
      if !handled {
        var identified := MarkRefundIdentified(id, IdentificationOf(o), now);
        if !identified {
          return true;
        }
      }
      threw := false;
    }

    /** A sighting that names an existing request. */
    method ObserveNamed(id: string, account: string, o: Sighting, now: Time)
      returns (threw: bool, alert: Option<Classification>, replays: bool)
      requires id in rows
      modifies this`rows
      ensures threw <==> Observe(old(rows)[id], account, o, now).None?
      ensures !threw ==>
                var out := Observe(old(rows)[id], account, o, now).value;
                rows == old(rows)[id := out.row] && alert == out.alert && replays == out.replaysOthers
    {
      var r := rows[id];
      var c := ClassifyFor(r, account, o);
      if r.execution.None? || c == External || c == Tampered {
        assert rows[id := r] == rows;
        return false, AlertOf(c), false;
      }
      var recorded := RecordCorrelationCandidate(id, o.refundId, InputOf(r, o, now));
      if !recorded {
        return true, None, false;
      }
      if c == WorkflowCandidate && (r.status == Executing || r.status == ReconciliationRequired) {
        threw, alert, replays := ObserveUnlinkedRefund(id, o, now);
      } else if c == WorkflowRefund {
        threw := ObserveKnownRefund(id, o, now);
        alert, replays := None, false;
      } else {
        threw, alert, replays := false, AlertOf(c), false;
      }
    }

    method RaiseOneAlert(installationId: string, o: Sighting, c: Option<Classification>, now: Time) returns (threw: bool)
      modifies this`rows, this`alerts
      ensures threw <==> RaiseAlert(old(Contents()), installationId, o, c, now).None?
      ensures Contents() == OrSame(old(Contents()), RaiseAlert(old(Contents()), installationId, o, c, now))
    {
      if c.None? {
        return false;
      }
      threw := RecordExternalRefund(
        installationId, o.refundId,
        Alert(o.environment, o.tuple.createdAt, o.tuple.paymentKey, o.tuple.amountMinor, o.tuple.currency, c.value), now);
    }

    /** A webhook or scan sighting: the request's own row, then the replays, then
        the alert; a throw anywhere undoes all of it. */
    method ObserveSighting(installationId: string, o: Sighting, others: seq<string>, now: Time) returns (threw: bool)
      modifies this
      ensures threw <==> ObserveRefund(old(Contents()), installationId, o, others, now).None?
      ensures Contents() == OrSame(old(Contents()), ObserveRefund(old(Contents()), installationId, o, others, now))
    {
      if o.environment == Live || installationId !in installations || installations[installationId].environment != o.environment
         || !installations[installationId].active || !tenantActive || liveEnabled {
        return true;
      }
      var before := Contents();
      if o.metadataRequestId.None? || o.metadataRequestId.value !in rows {
        threw := RaiseOneAlert(installationId, o, Some(if o.metadataRequestId.None? then External else Tampered), now);
        return;
      }
      var id := o.metadataRequestId.value;
      var alert, replays;
      threw, alert, replays := ObserveNamed(id, installations[installationId].stripeAccountId, o, now);
      if !threw {
        threw := FollowUp(id, installationId, o, alert, replays, others, now);
      }
      if threw {
        Rollback(before);
      }
    }

    method FollowUp(
      id: string, installationId: string, o: Sighting, alert: Option<Classification>, replays: bool, others: seq<string>, now: Time)
      returns (threw: bool)
      requires id in rows
      modifies this`rows, this`alerts
      ensures threw <==> FollowUps(old(Contents()), id, installationId, o, alert, replays, others, now).None?
      ensures !threw ==> Some(Contents()) == FollowUps(old(Contents()), id, installationId, o, alert, replays, others, now)
    {
      var candidates := rows[id].candidates;
      if replays && !ListsOthers(candidates, o.refundId, others) {
        return true;
      }
      threw := RaiseReplayAlerts(installationId, o.environment, candidates, if replays then others else [], now);
      if !threw {
        threw := RaiseOneAlert(installationId, o, alert, now);
      }
    }

    /** The refresh lane for a linked refund. */
    method ObserveLinkedSighting(
      id: string, installationId: string, refundId: string, environment: Environment, t: RefundTuple,
      status: Option<RefundStatus>, now: Time) returns (threw: bool)
      modifies this
      ensures threw <==> ObserveLinkedRefund(old(Contents()), id, installationId, refundId, environment, t, status, now).None?
      ensures Contents() == OrSame(old(Contents()),
                ObserveLinkedRefund(old(Contents()), id, installationId, refundId, environment, t, status, now))
    {
      if id !in rows || !HasActivePilotExecutionContext(Contents(), rows[id].snap) || rows[id].snap.installationId != installationId {
        return true;
      }
      if LinkOf(rows[id]) != Some(refundId) || !TupleMatches(rows[id].snap, environment, t) {
        return true;
      }
      var before := Contents();
      var ok := MarkRefundIdentified(id, Identification(refundId, status, status.Some? && !Unsettled(status), None), now);
      if !ok {
        Rollback(before);
      }
      threw := !ok;
    }

    // ---------------------------------------------- scan resolution

    /** One iteration of the resolution loop, statement by statement. */
    method ResolveOne(id: string, unresolvedAlert: bool, first: string, windowStart: Time, windowEnd: Time, now: Time)
      returns (verdict: Verdict, threw: bool)
      requires id in rows
      modifies this`rows
      ensures threw <==> ResolveByScan(old(rows)[id], unresolvedAlert, first, windowStart, windowEnd, now).None?
      ensures !threw ==>
                && rows == old(rows)[id := ResolveByScan(old(rows)[id], unresolvedAlert, first, windowStart, windowEnd, now).value]
                && verdict == VerdictOf(old(rows)[id], unresolvedAlert, first, windowStart, windowEnd)
    {
      var r := rows[id];
      assert rows[id := r] == rows;
      if r.execution.None? || LinkOf(r).Some? || !ScanCovers(r, windowStart, windowEnd) {
        return Skipped, false;
      }
      if r.candidates == map[] {
        if unresolvedAlert {
          RequireReconciliation(id, now);
          return Conflicting, false;
        }
        var absent := MarkAbsenceProven(id);
        if !absent {
          return Skipped, true;
        }
        var resumed := ResumeExecutionAfterAbsence(id, now);
        return Resolved, !resumed;
      }
      if first !in r.candidates {
        return Skipped, true;
      }
      verdict, threw := ResolveListed(id, unresolvedAlert, first, now);
    }

    method IdentifyAndLinkAs(id: string, input: Identification, state: CandidateState, now: Time) returns (ok: bool)
      requires id in rows
      modifies this`rows
      ensures ok <==> RefundRow.MarkRefundIdentified(old(rows)[id], input, now).Some?
      ensures ok ==>
                rows == old(rows)[id := LinkCandidateIfAny(RefundRow.MarkRefundIdentified(old(rows)[id], input, now).value, input.refundId, state)]
    {
      ok := MarkRefundIdentified(id, input, now);
      if ok {
        LinkCandidate(id, input.refundId, state);
      }
    }

    method ResolveListed(id: string, unresolvedAlert: bool, first: string, now: Time)
      returns (verdict: Verdict, threw: bool)
      requires id in rows && rows[id].execution.Some? && LinkOf(rows[id]).None? && first in rows[id].candidates
      modifies this`rows
      ensures forall ws, we | ScanCovers(old(rows)[id], ws, we) ::
                var o := ResolveByScan(old(rows)[id], unresolvedAlert, first, ws, we, now);
                && (threw <==> o.None?)
                && (!threw ==> rows == old(rows)[id := o.value] && verdict == VerdictOf(old(rows)[id], unresolvedAlert, first, ws, we))
    {
      var r := rows[id];
      var c := r.candidates[first];
      var decision := DecideRefundCandidate(None, first, c.evidence, |r.candidates|, true, true);
      if decision == ConflictDecision {
        rows := rows[id := r.(candidates := Conflicted(r.candidates))];
        RequireReconciliation(id, now);
        return Conflicting, false;
      }
      if decision != LinkUnique || c.lastSeenWindowEnd.None? || c.state == CandidateConflict {
        RequireReconciliation(id, now);
        return Held, false;
      }
      var identified := IdentifyAndLinkAs(id, Identification(first, c.status, !unresolvedAlert, c.eventAt), UniqueLinked, now);
      if !identified {
        return Skipped, true;
      }
      verdict, threw := if unresolvedAlert then Conflicting else Resolved, false;
    }

    /** One more request of the plan: `todo` are those not resolved yet. */
    method ResolveNext(
      id: string, scan: CompletedScan, ghost todo: set<string>,
      ghost start: map<string, Row>, ghost target: map<string, Option<Row>>, ghost expected: map<string, Verdict>)
      returns (verdict: Verdict, threw: bool)
      requires id in todo && id in target && Planned(start, alerts, scan, target, expected)
      requires rows == Replaced(start, target - todo)
      modifies this`rows
      ensures threw <==> target[id].None?
      ensures !threw ==>
                && rows == Replaced(start, target - (todo - {id})) && verdict == expected[id]
                && (AllSome(target - todo) ==> AllSome(target - (todo - {id})))
    {
      ReplaceOne(start, target, todo, id);
      assert target[id] == ResolveIn(start[id], alerts, id, scan) && expected[id] == VerdictIn(start[id], alerts, id, scan);
      var alert := HasUnresolvedAlert(alerts, scan.installationId, rows[id].snap);
      verdict, threw := ResolveOne(id, alert, FirstListed(scan, id), scan.windowStart, scan.windowEnd, scan.now);
    }

    /** What a committed scan does: the order of the requests does not matter,
        a throw undoes the whole commit, and the counters are exact. */
    method ResolveUniqueRefundCandidates(scan: CompletedScan) returns (resolved: nat, conflicts: nat, threw: bool)
      modifies this
      ensures threw <==> ResolveAll(old(Contents()), scan).None?
      ensures Contents() == OrSame(old(Contents()), ResolveAll(old(Contents()), scan))
      ensures !threw ==>
                && resolved == |Counted(old(Contents()), scan, Resolved)|
                && conflicts == |Counted(old(Contents()), scan, Conflicting)|
      ensures !threw && RowsSound(old(Contents())) ==>
                forall id | Resumable(old(Contents()), scan, id) ::
                  && id in rows && rows[id].status == Executing && rows[id].effect == AbsenceProven
                  && rows[id].executionStartedAt == Some(scan.now) && id in Counted(old(Contents()), scan, Resolved)
    {
      var before := Contents();
      var selected := set id | id in rows && Selected(rows[id], scan);
      ghost var target, expected := PlanOf(before, scan);
      resolved, conflicts, threw := ResolveEach(selected, scan, target, expected);
      ResumableAreResumed(before, scan);
      if threw {
        Rollback(before);
      }
    }

    method ResolveEach(
      selected: set<string>, scan: CompletedScan, ghost target: map<string, Option<Row>>, ghost expected: map<string, Verdict>)
      returns (resolved: nat, conflicts: nat, threw: bool)
      requires target.Keys == selected
      requires Planned(rows, alerts, scan, target, expected)
      modifies this`rows
      ensures threw <==> !AllSome(target)
      ensures !threw ==>
                && rows == Replaced(old(rows), target)
                && resolved == |With(expected, Resolved)| && conflicts == |With(expected, Conflicting)|
    {
      ghost var start := rows;
      var todo := selected;
      ghost var resolvedIds, conflictIds := {}, {};
      resolved, conflicts, threw := 0, 0, false;
      assert rows == Replaced(start, target - todo);
      while todo != {}
        invariant todo <= selected
        invariant rows == Replaced(start, target - todo) && AllSome(target - todo)
        invariant Tallied(expected, todo, Resolved, resolvedIds) && resolved == |resolvedIds|
        invariant Tallied(expected, todo, Conflicting, conflictIds) && conflicts == |conflictIds|
        decreases todo
      {
        var id :| id in todo;
        var verdict;
        verdict, threw := ResolveNext(id, scan, todo, start, target, expected);
        if threw {
          return;
        }
        resolvedIds := TallyOne(expected, todo, Resolved, resolvedIds, id);
        conflictIds := TallyOne(expected, todo, Conflicting, conflictIds, id);
        if verdict == Resolved {
          resolved := resolved + 1;
        } else if verdict == Conflicting {
          conflicts := conflicts + 1;
        }
        todo := todo - {id};
      }
      assert target - {} == target;
      TallyEnds(expected, Resolved, resolvedIds);
      TallyEnds(expected, Conflicting, conflictIds);
    }
  }

  function VerdictIn(r: Row, alerts: map<(string, string), Alert>, id: string, scan: CompletedScan): Verdict {
    VerdictOf(r, HasUnresolvedAlert(alerts, scan.installationId, r.snap), FirstListed(scan, id), scan.windowStart, scan.windowEnd)
  }

  /** The rows and verdicts that resolving each selected request leads to. */
  ghost predicate Planned(
    rows: map<string, Row>, alerts: map<(string, string), Alert>, scan: CompletedScan,
    target: map<string, Option<Row>>, expected: map<string, Verdict>)
  {
    && target.Keys == expected.Keys <= rows.Keys
    && (forall id {:trigger ResolveIn(rows[id], alerts, id, scan)} | id in target ::
          target[id] == ResolveIn(rows[id], alerts, id, scan))
    && (forall id {:trigger VerdictIn(rows[id], alerts, id, scan)} | id in expected ::
          expected[id] == VerdictIn(rows[id], alerts, id, scan))
  }

  /** The selected requests with a given verdict. */
  function Counted(db: Db, scan: CompletedScan, v: Verdict): set<string> {
    set id | id in db.rows && Selected(db.rows[id], scan) && VerdictIn(db.rows[id], db.alerts, id, scan) == v
  }

  function With(verdicts: map<string, Verdict>, v: Verdict): set<string> { set id | id in verdicts && verdicts[id] == v }

  function Replaced(rows: map<string, Row>, target: map<string, Option<Row>>): map<string, Row> {
    map id | id in rows :: if id in target && target[id].Some? then target[id].value else rows[id]
  }

  predicate AllSome(target: map<string, Option<Row>>) { forall id | id in target :: target[id].Some? }

  lemma ReplaceOne(start: map<string, Row>, target: map<string, Option<Row>>, todo: set<string>, id: string)
    requires id in todo && id in target && id in start
    ensures id in Replaced(start, target - todo) && Replaced(start, target - todo)[id] == start[id]
    ensures target[id].Some? ==>
              && Replaced(start, target - (todo - {id})) == Replaced(start, target - todo)[id := target[id].value]
              && (AllSome(target - todo) ==> AllSome(target - (todo - {id})))
  {
    if target[id].Some? {
      var a, b := target - todo, target - (todo - {id});
      assert forall k | k in b && k != id :: k in a && a[k] == b[k];
      var before, after := Replaced(start, a), Replaced(start, b);
      forall k | k in start
        ensures after[k] == before[id := target[id].value][k]
      {
      }
    }
  }

  /** The requests with this verdict that are no longer to do. */
  ghost predicate Tallied(verdicts: map<string, Verdict>, todo: set<string>, v: Verdict, ids: set<string>) {
    forall id :: id in ids <==> id in verdicts && verdicts[id] == v && id !in todo
  }

  lemma TallyOne(verdicts: map<string, Verdict>, todo: set<string>, v: Verdict, ids: set<string>, id: string)
    returns (ids': set<string>)
    requires Tallied(verdicts, todo, v, ids) && id in todo && id in verdicts
    ensures Tallied(verdicts, todo - {id}, v, ids') && |ids'| == |ids| + if verdicts[id] == v then 1 else 0
  {
    ids' := if verdicts[id] == v then ids + {id} else ids;
  }

  lemma TallyEnds(verdicts: map<string, Verdict>, v: Verdict, ids: set<string>)
    requires Tallied(verdicts, {}, v, ids)
    ensures ids == With(verdicts, v)
  {
  }

  lemma TargetsDecideThrow(db: Db, scan: CompletedScan, target: map<string, Option<Row>>, expected: map<string, Verdict>)
    requires Planned(db.rows, db.alerts, scan, target, expected)
    requires forall id :: id in target <==> id in db.rows && Selected(db.rows[id], scan)
    ensures ResolveAll(db, scan).None? <==> !AllSome(target)
  {
    if ResolveAll(db, scan).None? {
      var id :| id in db.rows && Selected(db.rows[id], scan) && ResolveIn(db.rows[id], db.alerts, id, scan).None?;
      assert id in target;
    } else {
      forall id | id in target
        ensures target[id].Some?
      {
        assert target[id] == ResolveIn(db.rows[id], db.alerts, id, scan);
      }
    }
  }

  lemma TargetsAreResolution(db: Db, scan: CompletedScan, target: map<string, Option<Row>>, expected: map<string, Verdict>)
    requires Planned(db.rows, db.alerts, scan, target, expected)
    requires forall id :: id in target <==> id in db.rows && Selected(db.rows[id], scan)
    ensures ResolveAll(db, scan).Some? ==> ResolveAll(db, scan).value == db.(rows := Replaced(db.rows, target))
  {
    if ResolveAll(db, scan).Some? {
      var all := ResolveAll(db, scan).value.rows;
      forall id | id in db.rows
        ensures all[id] == Replaced(db.rows, target)[id]
      {
        assert id in target ==> target[id] == ResolveIn(db.rows[id], db.alerts, id, scan);
      }
      assert all == Replaced(db.rows, target);
    }
  }

  lemma ExpectedAreCounted(
    db: Db, scan: CompletedScan, target: map<string, Option<Row>>, expected: map<string, Verdict>, v: Verdict)
    requires Planned(db.rows, db.alerts, scan, target, expected)
    requires forall id :: id in target <==> id in db.rows && Selected(db.rows[id], scan)
    ensures With(expected, v) == Counted(db, scan, v)
  {
    forall id | id in expected
      ensures expected[id] == VerdictIn(db.rows[id], db.alerts, id, scan)
    {
    }
  }

  lemma PlanOf(db: Db, scan: CompletedScan) returns (target: map<string, Option<Row>>, expected: map<string, Verdict>)
    ensures Planned(db.rows, db.alerts, scan, target, expected)
    ensures target.Keys == set id | id in db.rows && Selected(db.rows[id], scan)
    ensures ResolveAll(db, scan).None? <==> !AllSome(target)
    ensures ResolveAll(db, scan).Some? ==> ResolveAll(db, scan).value == db.(rows := Replaced(db.rows, target))
    ensures With(expected, Resolved) == Counted(db, scan, Resolved)
    ensures With(expected, Conflicting) == Counted(db, scan, Conflicting)
  {
    target := map id | id in db.rows && Selected(db.rows[id], scan) :: ResolveIn(db.rows[id], db.alerts, id, scan);
    expected := map id | id in db.rows && Selected(db.rows[id], scan) :: VerdictIn(db.rows[id], db.alerts, id, scan);
    TargetsDecideThrow(db, scan, target, expected);
    TargetsAreResolution(db, scan, target, expected);
    ExpectedAreCounted(db, scan, target, expected, Resolved);
    ExpectedAreCounted(db, scan, target, expected, Conflicting);
  }

  lemma ResumableAreResumed(db: Db, scan: CompletedScan)
    ensures RowsSound(db) && ResolveAll(db, scan).Some? ==>
              forall id | Resumable(db, scan, id) ::
                var rows := ResolveAll(db, scan).value.rows;
                && id in rows && rows[id].status == Executing && rows[id].effect == AbsenceProven
                && rows[id].executionStartedAt == Some(scan.now) && id in Counted(db, scan, Resolved)
  {
    if RowsSound(db) && ResolveAll(db, scan).Some? {
      forall id | Resumable(db, scan, id)
        ensures var rows := ResolveAll(db, scan).value.rows;
                && id in rows && rows[id].status == Executing && rows[id].effect == AbsenceProven
                && rows[id].executionStartedAt == Some(scan.now) && id in Counted(db, scan, Resolved)
      {
        CommittedRow(db, scan, id);
        ScanResumesCoveredAmbiguity(db, scan, id);
        CountersMean(db, scan, id);
      }
    }
  }
}
