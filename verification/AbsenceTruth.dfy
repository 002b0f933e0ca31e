/** Is a recorded absence true of Stripe? One request, the refund that Stripe
    holds under its idempotency key, and the scans that look for it, in real
    time.

    Contract of the environment: Stripe keeps at most one refund under the key;
    an attempt that was refused creates nothing; no call creates a refund once
    the safe boundary stamped for its attempt is reached; a listing, answered
    after the end of its window was read, holds every refund that then exists
    with a creation second in the window, with the metadata and the payment it
    was created with. That listing leaves a trace is not assumed but proved. */
module AbsenceTruth {
  import opened Prelude
  import opened Domain
  import opened Observation
  import opened Execution
  import opened Attestation
  import opened RefundRow
  import opened RowInvariant
  import opened RowTheorems
  import opened AbsenceCore

  /** One scan of the installation: its window, and whether its listing ended
      without a throw. */
  datatype Listing = Listing(start: Time, end: Time, finished: bool)

  datatype Universe = Universe(w: World, scans: seq<Listing>)

  datatype Event =
    | Core(step: Step)
    | OpenScan(start: Time, end: Time, at: Time)
    | List(scan: nat, account: string, sighting: Sighting, at: Time)

  /** Stripe timestamps are whole seconds. */
  function StripeTimestamp(t: Time): int { Max(0, t / 1000) }

  predicate InSeconds(t: Time, start: Time, end: Time) {
    StripeTimestamp(start) <= StripeTimestamp(t) <= StripeTimestamp(end)
  }

  /** Flooring to seconds never drops an instant of the window. */
  lemma WindowSurvivesFlooring(t: Time, windowStart: Time, windowEnd: Time)
    requires windowStart <= t <= windowEnd
    ensures InSeconds(t, windowStart, windowEnd)
  {
  }

  /** The request's refund exists and its second lies in the scan's window. */
  predicate Lists(u: Universe, k: nat)
    requires k < |u.scans|
  {
    u.w.ledger.Created? && InSeconds(u.w.ledger.at, u.scans[k].start, u.scans[k].end)
  }

  predicate FinishedScan(u: Universe, start: Time, end: Time) {
    exists k | 0 <= k < |u.scans| :: u.scans[k] == Listing(start, end, true)
  }

  /** The environment's contract for one event. */
  predicate Honest(u: Universe, e: Event) {
    match e
    case Core(Store(tx, at)) =>
      && u.w.now <= at && Clocked(tx, at)
      && (Refusal(tx) ==> !(u.w.ledger.Created? && u.w.ledger.creator == tx.attempt))
      && (tx.TxResolve? ==> FinishedScan(u, tx.windowStart, tx.windowEnd))
    case Core(Create(i, at, id)) =>
      && u.w.now <= at && u.w.ledger == NoRefund
      && i < |AttemptsOf(u.w.row)| && !Refused(u.w.row, i)
      && (i in u.w.boundary ==> at < u.w.boundary[i])
    case OpenScan(start, end, at) => u.w.now <= at && end <= at
    case List(k, account, o, at) =>
      && k < |u.scans| && u.w.now <= at && u.scans[k].end < at
      && (Lists(u, k) ==>
            && o.refundId == u.w.ledger.refundId && o.source == Scan(u.scans[k].end)
            && WorkerMade(u.w.row, account, o))
  }

  /** A listing that holds the refund observes it; a throw ends the scan. */
  function Happen(u: Universe, e: Event): Universe {
    match e
    case Core(s) => u.(w := Next(u.w, s))
    case OpenScan(start, end, at) => Universe(u.w.(now := at), u.scans + [Listing(start, end, false)])
    case List(k, account, o, at) =>
      if k >= |u.scans| then u
      else
        var finished := u.scans[k := u.scans[k].(finished := true)];
        if !Lists(u, k) then Universe(u.w.(now := at), finished)
        else if Try(u.w.row, TxObserve(account, o, at)).None? then u.(w := u.w.(now := at))
        else Universe(Next(u.w, Store(TxObserve(account, o, at), at)), finished)
  }

  /** Refusals are recorded by the newest attempt, as opposed to late ones. */
  predicate InTime(u: Universe, e: Event) { e.Core? ==> Timely(u.w, e.step) }

  // ------------------------------------------------------------ the invariant

  /** Every finished scan has recorded the refund if it lies in its window. */
  predicate ScansTraced(u: Universe) {
    forall k | 0 <= k < |u.scans| && u.scans[k].finished ::
      u.scans[k].end < u.w.now && Traced(u.w, u.scans[k].start, u.scans[k].end)
  }

  predicate Truth(u: Universe) {
    Truthful(u.w) && ScansTraced(u) && (u.w.ledger.Created? ==> |AttemptsOf(u.w.row)| > 0)
  }

  /** A finished scan's listing is complete: what the environment promised about
      the listing and what the store did with it, put together. */
  lemma FinishedScanLeftTrace(u: Universe, start: Time, end: Time)
    requires Truth(u) && FinishedScan(u, start, end)
    ensures Traced(u.w, start, end)
  {
  }

  lemma HonestIsAdmissible(u: Universe, s: Step)
    requires Truth(u) && Honest(u, Core(s))
    ensures Admissible(u.w, s)
  {
    if s.Store? && s.tx.TxResolve? {
      FinishedScanLeftTrace(u, s.tx.windowStart, s.tx.windowEnd);
    }
  }

  /** Store transactions keep the traces: candidates never disappear. */
  lemma StoreKeepsTraces(u: Universe, tx: RowTx, at: Time)
    requires Truth(u) && u.w.now <= at
    ensures ScansTraced(u.(w := Next(u.w, Store(tx, at))))
    ensures |AttemptsOf(u.w.row)| <= |AttemptsOf(Apply(u.w.row, tx))|
  {
    if Try(u.w.row, tx).Some? {
      TxAdvances(u.w.row, tx);
    }
  }

  lemma IdleKeepsTruthHere(w: World, at: Time)
    requires Truthful(w) && w.now <= at
    ensures Truthful(w.(now := at))
  {
    IdleKeepsTruth(w, w.row, at);
  }

  lemma StoreStepKeepsTruth(u: Universe, tx: RowTx, at: Time)
    requires Truth(u) && Honest(u, Core(Store(tx, at))) && Timely(u.w, Store(tx, at))
    ensures Truth(Happen(u, Core(Store(tx, at))))
  {
    HonestIsAdmissible(u, Store(tx, at));
    CoreStepKeepsTruth(u.w, Store(tx, at));
    StoreKeepsTraces(u, tx, at);
  }

  lemma CreateStepKeepsTruth(u: Universe, i: nat, at: Time, id: string)
    requires Truth(u) && Honest(u, Core(Create(i, at, id)))
    ensures Truth(Happen(u, Core(Create(i, at, id))))
  {
    CreateKeepsTruth(u.w, i, at, id);
  }

  /** The listing of a refund is traced because the store records a candidate. */
  lemma ListedRefundKeepsTruth(u: Universe, k: nat, account: string, o: Sighting, at: Time)
    requires Truth(u) && Honest(u, List(k, account, o, at)) && Lists(u, k)
    requires Try(u.w.row, TxObserve(account, o, at)).Some?
    ensures Truth(Happen(u, List(k, account, o, at)))
  {
    var tx := TxObserve(account, o, at);
    CoreStepKeepsTruth(u.w, Store(tx, at));
    StoreKeepsTraces(u, tx, at);
    SightingIsRecorded(u.w.row, account, o, at);
    var u' := Happen(u, List(k, account, o, at));
    assert u'.w.ledger.refundId in u'.w.row.candidates;
  }

  lemma UnlistedRefundKeepsTruth(u: Universe, k: nat, account: string, o: Sighting, at: Time)
    requires Truth(u) && Honest(u, List(k, account, o, at)) && !Lists(u, k)
    ensures Truth(Happen(u, List(k, account, o, at)))
  {
    IdleKeepsTruthHere(u.w, at);
    var x := u.scans[k];
    if u.w.ledger.Created? && x.start <= u.w.ledger.at <= x.end {
      WindowSurvivesFlooring(u.w.ledger.at, x.start, x.end);
      assert false;
    }
  }

  lemma ListKeepsTruth(u: Universe, k: nat, account: string, o: Sighting, at: Time)
    requires Truth(u) && Honest(u, List(k, account, o, at))
    ensures Truth(Happen(u, List(k, account, o, at)))
  {
    if !Lists(u, k) {
      UnlistedRefundKeepsTruth(u, k, account, o, at);
    } else if Try(u.w.row, TxObserve(account, o, at)).Some? {
      ListedRefundKeepsTruth(u, k, account, o, at);
    } else {
      IdleKeepsTruthHere(u.w, at);
    }
  }

  /** Every honest, timely event keeps: an unlinked absence is true, earlier
      attempts can create nothing any more, a refund that exists lies between the
      execution start and the safe boundary, and finished scans left a trace. */
  lemma StepKeepsTruth(u: Universe, e: Event)
    requires Truth(u) && Honest(u, e) && InTime(u, e)
    ensures Truth(Happen(u, e))
  {
    match e
    case Core(Store(tx, at)) => StoreStepKeepsTruth(u, tx, at);
    case Core(Create(i, at, id)) => CreateStepKeepsTruth(u, i, at, id);
    case OpenScan(start, end, at) => IdleKeepsTruthHere(u.w, at);
    case List(k, account, o, at) => ListKeepsTruth(u, k, account, o, at);
  }

  // ----------------------------------------------------------- the theorems

  /** Absence by scan is truthful: a request that the resolution of a finished
      scan puts back to execution has no refund in Stripe at all. */
  lemma ScanAbsenceIsTruthful(u: Universe, tx: RowTx, at: Time)
    requires Truth(u) && Honest(u, Core(Store(tx, at))) && tx.TxResolve?
    requires u.w.row.status == ReconciliationRequired && Apply(u.w.row, tx).status == Executing
    ensures u.w.ledger == NoRefund
  {
    HonestIsAdmissible(u, Store(tx, at));
    ResumptionShape(u.w.row, tx);
    TracedResumptionIsTruthful(u.w, tx, at);
  }

  lemma ResumptionShape(r: Row, tx: RowTx)
    requires tx.TxResolve? && r.status == ReconciliationRequired && Apply(r, tx).status == Executing
    ensures Try(r, tx).Some? && ResumedByScan(r, Try(r, tx).value, tx.now) && ScanCovers(r, tx.windowStart, tx.windowEnd)
  {
  }

  function Run(u: Universe, events: seq<Event>): Universe {
    if events == [] then u else Happen(Run(u, events[..|events| - 1]), events[|events| - 1])
  }

  predicate HonestRun(u: Universe, events: seq<Event>) {
    events == [] || (HonestRun(u, events[..|events| - 1]) && Honest(Run(u, events[..|events| - 1]), events[|events| - 1]))
  }

  predicate TimelyRun(u: Universe, events: seq<Event>) {
    events == [] || (TimelyRun(u, events[..|events| - 1]) && InTime(Run(u, events[..|events| - 1]), events[|events| - 1]))
  }

  function Start(snap: Snapshot, now: Time): Universe { Universe(World(NewRow(snap), NoRefund, now, map[]), []) }

  lemma {:induction false} RunKeepsTruth(u: Universe, events: seq<Event>)
    requires Truth(u) && HonestRun(u, events) && TimelyRun(u, events)
    ensures Truth(Run(u, events))
  {
    if events != [] {
      RunKeepsTruth(u, events[..|events| - 1]);
      StepKeepsTruth(Run(u, events[..|events| - 1]), events[|events| - 1]);
    }
  }

  /** Whenever a request is recorded as absent without a linked refund, Stripe
      holds no refund for it, for every run whose refusals come from the newest
      attempt: in particular a guard is never released over a live refund. */
  lemma RecordedAbsenceIsTrue(snap: Snapshot, now: Time, events: seq<Event>)
    requires HonestRun(Start(snap, now), events) && TimelyRun(Start(snap, now), events)
    ensures var w := Run(Start(snap, now), events).w;
            && (LinkOf(w.row).None? && w.row.effect == AbsenceProven ==> w.ledger == NoRefund)
            && (LinkOf(w.row).None? && w.row.guardReleasedAt.Some? ==> w.ledger == NoRefund)
  {
    RunKeepsTruth(Start(snap, now), events);
  }

  // ------------------------------------------------- why refusals must be timely

  lemma RunAppend(u: Universe, events: seq<Event>, e: Event)
    ensures Run(u, events + [e]) == Happen(Run(u, events), e)
    ensures HonestRun(u, events + [e]) <==> HonestRun(u, events) && Honest(Run(u, events), e)
  {
    assert (events + [e])[..|events|] == events;
  }

  predicate FirstApproval(snap: Snapshot, a: Approval) {
    a.kind == Approve && a.attestation.Some? && a.attestation.value.requestVersion == 0 && a.decidedAt < snap.expiresAt
  }

  /** Approve, claim and cross: the first attempt is on its way. */
  lemma FirstCrossing(snap: Snapshot, a: Approval, t: Time, account: string, key: string) returns (events: seq<Event>)
    requires FirstApproval(snap, a)
    ensures HonestRun(Start(snap, t), events)
    ensures var u := Run(Start(snap, t), events);
            && u.scans == [] && u.w.now == t + 11 && u.w.ledger == NoRefund && u.w.boundary == map[]
            && u.w.row == NewRow(snap).(
                 status := Executing, effect := Possible, approval := Some(a), version := 3, executionStartedAt := Some(t + 10),
                 execution := Some(Execution(key, ParamsOf(snap, account), None, None, None, [Attempt(1, Started)])))
  {
    var u0 := Start(snap, t);
    var e1, e2 := Core(Store(TxApprove(a), t)), Core(Store(TxClaim(t + 10), t + 10));
    var e3 := Core(Store(TxCross(account, key, t + 11), t + 11));
    RunAppend(u0, [], e1);
    RunAppend(u0, [] + [e1], e2);
    assert Run(u0, [] + [e1] + [e2]).w.row
        == NewRow(snap).(status := Executing, approval := Some(a), version := 2, executionStartedAt := Some(t + 10));
    assert [] + [Attempt(MaxNumber([]) + 1, Started)] == [Attempt(1, Started)];
    RunAppend(u0, [] + [e1] + [e2], e3);
    events := [] + [e1] + [e2] + [e3];
  }

  /** The attempt is diverted, and a scan over its time finds nothing. */
  lemma EmptyScan(snap: Snapshot, a: Approval, t: Time, account: string, key: string, o: Sighting) returns (events: seq<Event>)
    requires FirstApproval(snap, a)
    ensures HonestRun(Start(snap, t), events)
    ensures var u := Run(Start(snap, t), events);
            && u.scans == [Listing(t, t + 25, true)] && u.w.now == t + 26 && u.w.ledger == NoRefund
            && u.w.boundary == map[0 := t + 20]
            && u.w.row == NewRow(snap).(
                 status := ReconciliationRequired, effect := Possible, approval := Some(a), version := 4,
                 executionStartedAt := Some(t + 10), safeAfterAt := Some(t + 20),
                 execution := Some(Execution(key, ParamsOf(snap, account), None, None, None, [Attempt(1, Started)])))
  {
    var u0 := Start(snap, t);
    var first := FirstCrossing(snap, a, t, account, key);
    var e4 := Core(Store(TxDivert(t + 20), t + 20));
    var e5 := OpenScan(t, t + 25, t + 25);
    var e6 := List(0, account, o, t + 26);
    RunAppend(u0, first, e4);
    assert Run(u0, first + [e4]).w.boundary == map[0 := t + 20];
    RunAppend(u0, first + [e4], e5);
    RunAppend(u0, first + [e4] + [e5], e6);
    events := first + [e4] + [e5] + [e6];
  }

  /** The finished scan puts the request back to execution while its attempt is
      still unanswered. */
  lemma OrphanedAttempt(snap: Snapshot, a: Approval, t: Time, account: string, key: string, o: Sighting) returns (events: seq<Event>)
    requires FirstApproval(snap, a)
    ensures HonestRun(Start(snap, t), events)
    ensures var u := Run(Start(snap, t), events);
            && u.w.now == t + 30 && u.w.ledger == NoRefund && u.w.boundary == map[0 := t + 20]
            && u.w.row.snap == snap && u.w.row.status == Executing && u.w.row.effect == AbsenceProven
            && u.w.row.guardReleasedAt.None? && u.w.row.candidates == map[]
            && u.w.row.execution == Some(Execution(key, ParamsOf(snap, account), None, None, None, [Attempt(1, Started)]))
  {
    var u0 := Start(snap, t);
    var prefix := EmptyScan(snap, a, t, account, key, o);
    var e7 := Core(Store(TxResolve(false, "", t, t + 25, t + 30), t + 30));
    assert Run(u0, prefix).scans[0] == Listing(t, t + 25, true);
    RunAppend(u0, prefix, e7);
    events := prefix + [e7];
  }

  function Executed(snap: Snapshot, account: string, key: string, attempts: seq<Attempt>): Option<Execution> {
    Some(Execution(key, ParamsOf(snap, account), None, None, None, attempts))
  }

  /** A second attempt crosses the boundary while the first is unanswered. */
  lemma SecondCrossing(snap: Snapshot, a: Approval, t: Time, account: string, key: string, o: Sighting) returns (events: seq<Event>)
    requires FirstApproval(snap, a)
    ensures HonestRun(Start(snap, t), events)
    ensures var u := Run(Start(snap, t), events);
            && u.w.now == t + 31 && u.w.ledger == NoRefund && u.w.boundary == map[0 := t + 20]
            && u.w.row.snap == snap && u.w.row.status == Executing && u.w.row.effect == Possible
            && u.w.row.guardReleasedAt.None? && u.w.row.candidates == map[]
            && u.w.row.execution == Executed(snap, account, key, [Attempt(1, Started), Attempt(2, Started)])
  {
    var prefix := OrphanedAttempt(snap, a, t, account, key, o);
    var u0 := Start(snap, t);
    var e8 := Core(Store(TxCross(account, key, t + 31), t + 31));
    RunAppend(u0, prefix, e8);
    assert MaxNumber([Attempt(1, Started)]) == 1 by {
      assert [Attempt(1, Started)][..0] == [];
    }
    assert [Attempt(1, Started)] + [Attempt(2, Started)] == [Attempt(1, Started), Attempt(2, Started)];
    events := prefix + [e8];
  }

  /** Recording a terminal refusal closes an executing request with a possible
      effect, whichever attempt it is of. */
  lemma TerminalRefusalCloses(r: Row, i: nat, now: Time)
    requires r.status == Executing && r.effect == Possible && r.execution.Some?
    requires i < |AttemptsOf(r)| && AttemptsOf(r)[i].state == Started
    ensures var r' := Apply(r, TxTerminalAttempt(i, now));
            && r'.status == FailedTerminal && r'.guardReleasedAt == Some(now) && LinkOf(r') == LinkOf(r)
            && r'.execution == Some(r.execution.value.(attempts := AttemptsOf(r)[i := AttemptsOf(r)[i].(state := TerminalFailure)]))
  {
  }

  /** A refusal of an older attempt, recorded late, closes the request and
      releases its payment guard although the newer attempt's refund exists. */
  lemma LateRefusalReleasesGuardOverLiveRefund(
    snap: Snapshot, a: Approval, t: Time, account: string, key: string, o: Sighting, refundId: string) returns (events: seq<Event>)
    requires FirstApproval(snap, a)
    ensures HonestRun(Start(snap, t), events)
    ensures var w := Run(Start(snap, t), events).w;
            && w.now == t + 33 && w.row.status == FailedTerminal && w.row.guardReleasedAt.Some? && LinkOf(w.row).None?
            && w.row.execution == Executed(snap, account, key, [Attempt(1, TerminalFailure), Attempt(2, Started)])
            && w.ledger == Created(1, t + 32, refundId)
  {
    var prefix := SecondCrossing(snap, a, t, account, key, o);
    var u0 := Start(snap, t);
    var e9 := Core(Create(1, t + 32, refundId));
    var e10 := Core(Store(TxTerminalAttempt(0, t + 33), t + 33));
    TerminalRefusalCloses(Run(u0, prefix).w.row, 0, t + 33);
    RunAppend(u0, prefix, e9);
    RunAppend(u0, prefix + [e9], e10);
    assert [Attempt(1, Started), Attempt(2, Started)][0 := Attempt(1, TerminalFailure)] == [Attempt(1, TerminalFailure), Attempt(2, Started)];
    events := prefix + [e9] + [e10];
  }

  /** The same run continued by the newer attempt's own answer: a pending refund
      is linked to the closed request and is never refreshed again. */
  lemma LateAnswerIsNeverRefreshed(
    snap: Snapshot, a: Approval, t: Time, account: string, key: string, o: Sighting, refundId: string) returns (events: seq<Event>)
    requires FirstApproval(snap, a) && IsRefundId(refundId)
    ensures HonestRun(Start(snap, t), events)
    ensures var w := Run(Start(snap, t), events).w;
            && w.ledger.Created? && w.ledger.refundId == refundId && LinkOf(w.row) == Some(refundId)
            && RefundStatusOf(w.row) == Some(RefundPending) && Abandoned(w.row)
  {
    var prefix := LateRefusalReleasesGuardOverLiveRefund(snap, a, t, account, key, o, refundId);
    var u0 := Start(snap, t);
    var r := Run(u0, prefix).w.row;
    assert AttemptsOf(r)[1].state == Started;
    var last := Core(Store(TxIdentified(1, refundId, Some(RefundPending), t + 34), t + 34));
    LateRowLinks(r, 1, refundId, t + 34);
    RunAppend(u0, prefix, last);
    events := prefix + [last];
  }

  lemma LateRowLinks(r: Row, i: nat, refundId: string, now: Time)
    requires r.status == FailedTerminal && r.execution.Some? && LinkOf(r).None? && IsRefundId(refundId)
    requires RefundStatusOf(r).None? && r.execution.value.lastEventAt.None?
    requires i < |AttemptsOf(r)| && AttemptsOf(r)[i].state == Started
    ensures var r' := Apply(r, TxIdentified(i, refundId, Some(RefundPending), now));
            LinkOf(r') == Some(refundId) && RefundStatusOf(r') == Some(RefundPending) && Abandoned(r')
  {
  }

  /** Exactly when a refusal proves absence: in every truthful state, recording
      the refusal of attempt i is true of every refund Stripe may then hold if
      and only if i is the newest attempt. */
  lemma RefusalProvesAbsenceIffNewest(u: Universe, i: nat)
    requires Truth(u) && LinkOf(u.w.row).None? && u.w.row.status == Executing && u.w.row.effect == Possible
    requires i < |AttemptsOf(u.w.row)| && AttemptsOf(u.w.row)[i].state == Started
    ensures (forall l: Ledger | Truth(u.(w := u.w.(ledger := l))) && !(l.Created? && l.creator == i) :: l == NoRefund)
            <==> i == Newest(u.w.row)
  {
    if i != Newest(u.w.row) {
      var w' := u.w.(ledger := Created(Newest(u.w.row), u.w.now, "re_1"));
      SettlementPersists(u.w, w');
      assert Truthful(w');
      assert Truth(u.(w := w'));
    }
  }
}
