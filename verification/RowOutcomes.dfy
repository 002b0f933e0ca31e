/** What every transaction achieves, said on the columns of the row before and
    after it: the other half of the safety theorems, which only bound what may
    happen. */
module RowOutcomes {
  import opened Prelude
  import opened Domain
  import opened Observation
  import opened Execution
  import opened Attestation
  import opened RefundRow
  import opened RowInvariant
  import opened RowTheorems

  // ---------------------------------------------- learning a refund's status

  /** How a running request ends up once the status of its refund is known. */
  predicate Concluded(r: Row, r': Row, status: Option<RefundStatus>, now: Time) {
    match status
    case None =>
      r'.status == ReconciliationRequired && r'.effect == Identified && r'.guardReleasedAt.None? && r'.terminalAt == r.terminalAt
    case Some(RefundPending) | Some(RefundRequiresAction) =>
      r'.status == r.status && r'.effect == Identified && r'.guardReleasedAt.None? && r'.terminalAt == r.terminalAt
    case Some(RefundSucceeded) =>
      r'.status == Succeeded && r'.effect == Identified && r'.guardReleasedAt == Some(now) && r'.terminalAt == Some(now)
    case Some(RefundFailed) | Some(RefundCanceled) =>
      r'.status == FailedTerminal && r'.effect == AbsenceProven && r'.guardReleasedAt == Some(now) && r'.terminalAt == Some(now)
  }

  /** A reconciling request keeps reconciling, now with an identified effect. */
  predicate Preserved(r: Row, r': Row) {
    r'.status == ReconciliationRequired && r'.effect == Identified && r'.guardReleasedAt.None? && r'.terminalAt == r.terminalAt
  }

  predicate Stores(r': Row, refundId: string, status: Option<RefundStatus>) {
    LinkOf(r') == Some(refundId) && RefundStatusOf(r') == status
  }

  /** An event moves the watermark to its own time, a snapshot leaves it. */
  predicate Dates(r: Row, r': Row, input: Identification) {
    LastEventOf(r') == if input.eventAt.Some? then input.eventAt else LastEventOf(r)
  }

  /** The observation is not refused: same or first link, a valid identifier, and
      fresh enough for what is stored. */
  predicate Welcome(r: Row, input: Identification) {
    && r.execution.Some? && (LinkOf(r).None? || LinkOf(r) == Some(input.refundId)) && IsRefundId(input.refundId)
    && Applies(Stored(RefundStatusOf(r), LastEventOf(r)), (input.status, input.eventAt))
  }

  /** A running request with an effect, reconciling only if it may be resolved. */
  predicate Concludable(r: Row, input: Identification) {
    Effective(r.effect) && (r.status == Executing || (r.status == ReconciliationRequired && input.resolve))
  }

  lemma IdentifyConcludes(r: Row, input: Identification, now: Time)
    requires Sound(r) && Welcome(r, input) && Concludable(r, input)
    ensures MarkRefundIdentified(r, input, now).Some?
    ensures var r' := MarkRefundIdentified(r, input, now).value;
            && Concluded(r, r', input.status, now) && Stores(r', input.refundId, input.status) && r'.version == r.version + 1
            && Dates(r, r', input)
  {
  }

  lemma IdentifyPreserves(r: Row, input: Identification, now: Time)
    requires Sound(r) && Welcome(r, input) && r.status == ReconciliationRequired && !input.resolve
    ensures MarkRefundIdentified(r, input, now).Some?
    ensures var r' := MarkRefundIdentified(r, input, now).value;
            Preserved(r, r') && Stores(r', input.refundId, input.status) && Dates(r, r', input)
  {
  }

  lemma IdentifyCorrects(r: Row, input: Identification, now: Time)
    requires Sound(r) && Welcome(r, input) && r.status == Succeeded
    ensures MarkRefundIdentified(r, input, now).Some?
    ensures var r' := MarkRefundIdentified(r, input, now).value;
            && Stores(r', input.refundId, input.status) && Dates(r, r', input) && r'.guardReleasedAt == r.guardReleasedAt
            && if AbsenceProving(input.status) then r'.status == FailedTerminal && r'.effect == AbsenceProven
               else r'.status == Succeeded && r'.effect == Identified
  {
  }

  /** Identification needs neither candidates nor attempts, so linking the
      candidate and finishing the attempt leave its outcome alone. */
  lemma OutcomeFrame(r: Row, q: Row, q': Row, status: Option<RefundStatus>, refundId: string, now: Time)
    requires q' == q.(candidates := q'.candidates, execution := q'.execution)
    requires LinkOf(q') == LinkOf(q) && RefundStatusOf(q') == RefundStatusOf(q)
    ensures Concluded(r, q, status, now) ==> Concluded(r, q', status, now)
    ensures Preserved(r, q) ==> Preserved(r, q')
    ensures Stores(q, refundId, status) ==> Stores(q', refundId, status)
  {
  }

  lemma LinkAndFinishFrame(q: Row, i: nat, refundId: string)
    requires q.execution.Some? && i < |AttemptsOf(q)| && AttemptsOf(q)[i].state == Started
    ensures var o := FinishExecutionAttempt(LinkCandidateIfAny(q, refundId, ExactLinked), i, Completed);
            && o.Some? && o.value == q.(candidates := o.value.candidates, execution := o.value.execution)
            && LinkOf(o.value) == LinkOf(q) && RefundStatusOf(o.value) == RefundStatusOf(q)
            && AttemptsOf(o.value) == AttemptsOf(q)[i := AttemptsOf(q)[i].(state := Completed)]
  {
  }

  /** The answer of a started attempt of an executing request, by the status that
      Stripe reports: succeeded closes the request and releases its guard, failed
      or canceled closes it as absent, an open status keeps it executing, and an
      unknown one sends it to reconciliation. */
  lemma AnswerConcludes(r: Row, i: nat, refundId: string, status: Option<RefundStatus>, now: Time)
    requires Sound(r) && r.status == Executing && r.effect == Possible && LinkOf(r).None?
    requires IsRefundId(refundId) && i < |AttemptsOf(r)| && AttemptsOf(r)[i].state == Started
    ensures var r' := Apply(r, TxIdentified(i, refundId, status, now));
            && Concluded(r, r', status, now) && Stores(r', refundId, status) && r'.version == r.version + 1
            && AttemptsOf(r') == AttemptsOf(r)[i := AttemptsOf(r)[i].(state := Completed)]
  {
    var input := Identification(refundId, status, false, None);
    IdentifyConcludes(r, input, now);
    IdentifyLinks(r, input, now);
    var q := MarkRefundIdentified(r, input, now).value;
    LinkAndFinishFrame(q, i, refundId);
    OutcomeFrame(r, q, Apply(r, TxIdentified(i, refundId, status, now)), status, refundId, now);
  }

  /** The answer of a started attempt of a request that was diverted meanwhile. */
  lemma AnswerWhileReconciling(r: Row, i: nat, refundId: string, status: Option<RefundStatus>, now: Time)
    requires Sound(r) && r.status == ReconciliationRequired && r.execution.Some? && LinkOf(r).None?
    requires IsRefundId(refundId) && i < |AttemptsOf(r)| && AttemptsOf(r)[i].state == Started
    ensures var r' := Apply(r, TxIdentified(i, refundId, status, now));
            Preserved(r, r') && Stores(r', refundId, status)
  {
    var input := Identification(refundId, status, false, None);
    IdentifyPreserves(r, input, now);
    IdentifyLinks(r, input, now);
    var q := MarkRefundIdentified(r, input, now).value;
    LinkAndFinishFrame(q, i, refundId);
    OutcomeFrame(r, q, Apply(r, TxIdentified(i, refundId, status, now)), status, refundId, now);
  }

  /** The refresh lane on a linked request: a settled status concludes an executing
      or reconciling one and corrects a succeeded one; an open or unknown status
      leaves a reconciling request reconciling. */
  lemma RefreshConcludes(r: Row, refundId: string, environment: Environment, t: RefundTuple, status: Option<RefundStatus>, now: Time)
    requires Sound(r) && LinkOf(r) == Some(refundId) && IsRefundId(refundId) && TupleMatches(r.snap, environment, t)
    requires Rank(RefundStatusOf(r)) <= Rank(status) && r.status in {Executing, ReconciliationRequired, Succeeded}
    ensures var r' := Apply(r, TxRefresh(refundId, environment, t, status, now));
            && Stores(r', refundId, status)
            && (r.status == Executing || (r.status == ReconciliationRequired && !Unsettled(status)) ==> Concluded(r, r', status, now))
            && (r.status == ReconciliationRequired && Unsettled(status) ==> Preserved(r, r'))
            && (r.status == Succeeded && AbsenceProving(status) ==> r'.status == FailedTerminal && r'.effect == AbsenceProven)
  {
    var input := Identification(refundId, status, status.Some? && !Unsettled(status), None);
    AppliesIffNewerOrHigher(Stored(RefundStatusOf(r), LastEventOf(r)), (status, None));
    if r.status == Succeeded {
      IdentifyCorrects(r, input, now);
    } else if r.status == Executing || input.resolve {
      IdentifyConcludes(r, input, now);
    } else {
      IdentifyPreserves(r, input, now);
    }
  }

  // ------------------------------------------------------- sightings

  predicate SignedBy(p: Proof, s: Snapshot, account: string) {
    && p.tenantId == s.tenantId && p.stripeAccountId == account && p.requestId == s.requestId
    && p.paymentKey == s.paymentKey && p.amountMinor == s.amountMinor && p.currency == s.currency
    && p.environment == s.environment
  }

  /** The metadata and the proof are the worker's own for this request, and the
      refund is of its payment, for its amount. */
  predicate GenuineSighting(r: Row, account: string, o: Sighting) {
    && o.metadataRequestId == Some(r.snap.requestId) && o.proof.Some? && SignedBy(o.proof.value, r.snap, account)
    && o.environment == r.snap.environment && o.tuple.installationId == r.snap.installationId
    && o.tuple.paymentKey == r.snap.paymentKey && o.tuple.amountMinor == r.snap.amountMinor && o.tuple.currency == r.snap.currency
    && (r.snap.paymentIntentId.Some? ==> o.tuple.paymentIntentId == r.snap.paymentIntentId)
    && (r.snap.chargeId.Some? ==> o.tuple.chargeId == r.snap.chargeId)
  }

  /** Each class of sighting, exactly. */
  lemma ClassificationIff(r: Row, account: string, o: Sighting)
    ensures var c := ClassifyFor(r, account, o);
            && (c == External <==> o.metadataRequestId.None? || o.proof.None?)
            && (c == Tampered <==> o.metadataRequestId.Some? && o.proof.Some? && !GenuineSighting(r, account, o))
            && (c == WorkflowCandidate <==> GenuineSighting(r, account, o) && LinkOf(r).None?)
            && (c == WorkflowRefund <==> GenuineSighting(r, account, o) && LinkOf(r) == Some(o.refundId))
            && (c == ProofReplay <==> GenuineSighting(r, account, o) && LinkOf(r).Some? && LinkOf(r) != Some(o.refundId))
  {
  }

  /** A genuine event that carries the request's idempotency key. */
  predicate ExactSighting(r: Row, account: string, o: Sighting) {
    && GenuineSighting(r, account, o) && r.execution.Some?
    && o.source.Webhook? && o.source.idempotencyKey == Some(r.execution.value.key)
  }

  lemma RecordedKeepsRest(r: Row, id: string, input: CandidateInput)
    requires RecordCandidate(r, id, input).Some?
    ensures var q := RecordCandidate(r, id, input).value;
            q == r.(candidates := q.candidates) && id in q.candidates
  {
  }

  /** A genuine sighting is refused only for a tuple that contradicts an earlier
      one of the same refund. */
  predicate Recordable(r: Row, o: Sighting) { o.refundId in r.candidates ==> r.candidates[o.refundId].tuple == o.tuple }

  lemma ExactSightingShape(r: Row, account: string, o: Sighting, now: Time)
    requires ExactSighting(r, account, o) && LinkOf(r).None? && Running(r.status) && Recordable(r, o)
    requires MarkRefundIdentified(r, IdentificationOf(o), now).Some?
    ensures var q := MarkRefundIdentified(r, IdentificationOf(o), now).value;
            var out := Observe(r, account, o, now);
            && out.Some? && out.value.row == q.(candidates := out.value.row.candidates)
            && out.value.alert.None? && out.value.replaysOthers
            && o.refundId in out.value.row.candidates && out.value.row.candidates[o.refundId].state == ExactLinked
  {
    ClassificationIff(r, account, o);
    var recorded := RecordCandidate(r, o.refundId, InputOf(r, o, now)).value;
    RecordedKeepsRest(r, o.refundId, InputOf(r, o, now));
    IdentifyFrame(r, recorded.candidates, IdentificationOf(o), now);
  }

  /** An event with the request's own idempotency key links its refund at once and
      concludes an executing request by its status; the other candidates are
      replays. A reconciling request keeps reconciling. */
  lemma ExactSightingLinks(r: Row, account: string, o: Sighting, now: Time)
    requires Sound(r) && ExactSighting(r, account, o) && LinkOf(r).None? && Running(r.status) && Effective(r.effect)
    requires Recordable(r, o) && IsRefundId(o.refundId)
    ensures var out := Observe(r, account, o, now);
            && out.Some? && out.value.alert.None? && out.value.replaysOthers
            && var r' := Apply(r, TxObserve(account, o, now));
               && r' == out.value.row
               && Stores(r', o.refundId, AuthoritativeStatus(o.source, o.reported))
               && r'.candidates[o.refundId].state == ExactLinked
               && (r.status == Executing ==> Concluded(r, r', AuthoritativeStatus(o.source, o.reported), now))
               && (r.status == ReconciliationRequired ==> Preserved(r, r'))
  {
    var input := IdentificationOf(o);
    if r.status == Executing {
      IdentifyConcludes(r, input, now);
    } else {
      IdentifyPreserves(r, input, now);
    }
    ExactSightingShape(r, account, o, now);
    var q := MarkRefundIdentified(r, input, now).value;
    OutcomeFrame(r, q, Observe(r, account, o, now).value.row, input.status, o.refundId, now);
  }

  /** Any other genuine sighting of an unlinked running request diverts it and
      waits for a scan: silently for a first unproven one, as tampering when it
      carries a foreign key, as a replay when there are several. */
  lemma InexactSightingDiverts(r: Row, account: string, o: Sighting, now: Time)
    requires GenuineSighting(r, account, o) && !ExactSighting(r, account, o) && r.execution.Some?
    requires LinkOf(r).None? && Running(r.status) && r.guardReleasedAt.None? && Recordable(r, o)
    ensures var out := Observe(r, account, o, now);
            var foreignKey := o.source.Webhook? && o.source.idempotencyKey.Some?;
            && out.Some? && out.value.row == Apply(r, TxObserve(account, o, now)) && !out.value.replaysOthers
            && out.value.row.status == ReconciliationRequired && LinkOf(out.value.row).None?
            && o.refundId in out.value.row.candidates
            && out.value.alert == (if foreignKey then Some(Tampered)
                                   else if |out.value.row.candidates| > 1 then Some(ProofReplay) else None)
  {
    ClassificationIff(r, account, o);
    RecordedKeepsRest(r, o.refundId, InputOf(r, o, now));
    var recorded := RecordCandidate(r, o.refundId, InputOf(r, o, now)).value;
    SingletonCount(recorded.candidates, o.refundId);
  }

  /** Exactly when each decision about a candidate is taken. */
  lemma CandidateDecisionIff(linked: Option<string>, id: string, evidence: Evidence, count: int, complete: bool, covers: bool)
    ensures var d := DecideRefundCandidate(linked, id, evidence, count, complete, covers);
            && (d == AlreadyLinked <==> linked == Some(id))
            && (d == ProofReplayDecision <==> linked.Some? && linked.value != id)
            && (d == LinkExact <==> linked.None? && evidence == EvidenceExact)
            && (d == ConflictDecision <==> linked.None? && (evidence == EvidenceMismatch || (evidence == EvidenceAbsent && count > 1)))
            && (d == LinkUnique <==> linked.None? && evidence == EvidenceAbsent && count <= 1 && complete && covers)
  {
  }

  lemma KnownSightingShape(r: Row, account: string, o: Sighting, now: Time)
    requires GenuineSighting(r, account, o) && r.execution.Some? && LinkOf(r) == Some(o.refundId) && Recordable(r, o)
    requires ShouldApplyLinkedRefundObservation(Stored(RefundStatusOf(r), LastEventOf(r)), o.source, o.reported)
    requires MarkRefundIdentified(r, IdentificationOf(o), now).Some?
    ensures var out := Observe(r, account, o, now);
            && out.Some? && out.value.alert.None? && !out.value.replaysOthers
            && out.value.row == MarkRefundIdentified(r, IdentificationOf(o), now).value.(candidates := out.value.row.candidates)
            && o.refundId in out.value.row.candidates && out.value.row.candidates[o.refundId].state in {UniqueLinked, ExactLinked}
  {
    ClassificationIff(r, account, o);
    var input := InputOf(r, o, now);
    RecordedKeepsRest(r, o.refundId, input);
    var q := RecordCandidate(r, o.refundId, input).value;
    var keep := q.candidates[o.refundId].state == UniqueLinked && EvidenceOf(q, o.source) != EvidenceExact;
    var l := MarkCandidateLinked(q, o.refundId, if keep then UniqueLinked else ExactLinked);
    assert l.Some? && l.value == r.(candidates := l.value.candidates);
    IdentifyFrame(r, l.value.candidates, IdentificationOf(o), now);
  }

  /** A sighting of the linked refund that the filter and the repository let pass
      stores its status and concludes an executing request, corrects a succeeded
      one, and leaves a reconciling one reconciling; one the filter drops changes
      nothing but the candidate. */
  lemma KnownSightingConcludes(r: Row, account: string, o: Sighting, now: Time)
    requires Sound(r) && GenuineSighting(r, account, o) && LinkOf(r) == Some(o.refundId) && Recordable(r, o)
    requires ShouldApplyLinkedRefundObservation(Stored(RefundStatusOf(r), LastEventOf(r)), o.source, o.reported)
    requires Welcome(r, IdentificationOf(o)) && r.status in {Executing, ReconciliationRequired, Succeeded}
    ensures var r' := Apply(r, TxObserve(account, o, now));
            var status := AuthoritativeStatus(o.source, o.reported);
            && Stores(r', o.refundId, status)
            && (r.status == Executing ==> Concluded(r, r', status, now))
            && (r.status == ReconciliationRequired ==> Preserved(r, r'))
            && (r.status == Succeeded && AbsenceProving(status) ==> r'.status == FailedTerminal && r'.effect == AbsenceProven)
  {
    var input := IdentificationOf(o);
    if r.status == Executing {
      IdentifyConcludes(r, input, now);
    } else if r.status == ReconciliationRequired {
      IdentifyPreserves(r, input, now);
    } else {
      IdentifyCorrects(r, input, now);
    }
    KnownSightingShape(r, account, o, now);
    var q := MarkRefundIdentified(r, input, now).value;
    OutcomeFrame(r, q, Observe(r, account, o, now).value.row, input.status, o.refundId, now);
  }

  lemma DroppedSightingKeepsRow(r: Row, account: string, o: Sighting, now: Time)
    requires GenuineSighting(r, account, o) && r.execution.Some? && LinkOf(r) == Some(o.refundId) && Recordable(r, o)
    requires !ShouldApplyLinkedRefundObservation(Stored(RefundStatusOf(r), LastEventOf(r)), o.source, o.reported)
    ensures var r' := Apply(r, TxObserve(account, o, now));
            r' == r.(candidates := r'.candidates) && o.refundId in r'.candidates
  {
    ClassificationIff(r, account, o);
    RecordedKeepsRest(r, o.refundId, InputOf(r, o, now));
  }

  /** Once there are several candidates none of them is still pending. */
  predicate Marked(candidates: map<string, Candidate>) {
    |candidates| > 1 ==> forall c | c in candidates :: candidates[c].state != CandidatePending
  }

  lemma ConflictedIsMarked(candidates: map<string, Candidate>)
    ensures Marked(Conflicted(candidates)) && Conflicted(candidates).Keys == candidates.Keys
  {
  }

  /** The candidates before conflicts are marked. */
  function Unmarked(r: Row, id: string, input: CandidateInput): map<string, Candidate> {
    r.candidates[id := MergeCandidate(if id in r.candidates then r.candidates[id] else FreshCandidate(input), input)]
  }

  lemma RecordedCandidates(r: Row, id: string, input: CandidateInput)
    requires RecordCandidate(r, id, input).Some?
    ensures var all := Unmarked(r, id, input);
            RecordCandidate(r, id, input).value.candidates == if |all| > 1 then Conflicted(all) else all
  {
  }

  /** Recording a sighting adds its candidate and marks all pending ones as soon as
      there are several; a single one keeps its state. */
  lemma RecordingMarks(r: Row, id: string, input: CandidateInput)
    requires RecordCandidate(r, id, input).Some?
    ensures var c := RecordCandidate(r, id, input).value.candidates;
            && Marked(c) && c.Keys == r.candidates.Keys + {id}
            && (c.Keys == {id} ==> c[id].state == if id in r.candidates then r.candidates[id].state else CandidatePending)
  {
    var all := Unmarked(r, id, input);
    RecordedCandidates(r, id, input);
    ConflictedIsMarked(all);
    if all.Keys == {id} {
      OneCandidate(all, id);
    }
  }

  /** What a sighting puts on record as an input: the authoritative status, dated by
      the event or else by the end of the scan's window, and its evidence. */
  lemma SightingOnRecord(r: Row, account: string, o: Sighting, now: Time)
    requires GenuineSighting(r, account, o) && r.execution.Some?
    ensures var input := InputOf(r, o, now);
            && input.tuple == o.tuple
            && (o.source.Webhook? ==>
                  && input.eventAt == Some(o.source.eventCreatedSeconds * 1000) && input.windowEnd.None?
                  && StateObservedAt(input) == o.source.eventCreatedSeconds * 1000
                  && input.status == (if o.source.isFailedEvent then Some(RefundFailed) else o.reported))
            && (o.source.Scan? ==>
                  && input.eventAt.None? && input.windowEnd == Some(o.source.windowEnd)
                  && StateObservedAt(input) == o.source.windowEnd && input.status == o.reported)
            && (input.evidence == EvidenceExact <==> ExactSighting(r, account, o))
            && (input.evidence == EvidenceAbsent <==> o.source.Scan? || o.source.idempotencyKey.None?)
  {
  }

  lemma FreshMergeIsFresh(input: CandidateInput)
    ensures MergeCandidate(FreshCandidate(input), input) == FreshCandidate(input)
  {
  }

  /** The first sighting of a refund leaves exactly that on record. */
  lemma FirstSightingIsRecorded(r: Row, account: string, o: Sighting, now: Time)
    requires GenuineSighting(r, account, o) && r.execution.Some? && o.refundId !in r.candidates && !Running(r.status) && LinkOf(r).None?
    ensures var r' := Apply(r, TxObserve(account, o, now));
            var input := InputOf(r, o, now);
            && o.refundId in r'.candidates && r'.candidates.Keys == r.candidates.Keys + {o.refundId}
            && r'.candidates[o.refundId].(state := CandidatePending)
               == Candidate(o.tuple, input.status, StateObservedAt(input), input.eventAt, input.evidence, input.windowEnd, CandidatePending)
  {
    ClassificationIff(r, account, o);
    FreshMergeIsFresh(InputOf(r, o, now));
    RecordedCandidates(r, o.refundId, InputOf(r, o, now));
    RecordingMarks(r, o.refundId, InputOf(r, o, now));
  }

  // --------------------------------------------- merging repeated sightings

  /** The candidate after a first sighting and any number of repeats. */
  function MergeAll(first: CandidateInput, rest: seq<CandidateInput>): Candidate {
    if rest == [] then FreshCandidate(first) else MergeCandidate(MergeAll(first, rest[..|rest| - 1]), rest[|rest| - 1])
  }

  function Nth(first: CandidateInput, rest: seq<CandidateInput>, k: nat): CandidateInput
    requires k <= |rest|
  {
    if k == 0 then first else rest[k - 1]
  }

  /** Sighting k is the latest of those observed last. */
  predicate Latest(first: CandidateInput, rest: seq<CandidateInput>, k: nat) {
    && k <= |rest|
    && forall j: nat | j <= |rest| ::
         && StateObservedAt(Nth(first, rest, j)) <= StateObservedAt(Nth(first, rest, k))
         && (j > k ==> StateObservedAt(Nth(first, rest, j)) < StateObservedAt(Nth(first, rest, k)))
  }

  /** Whatever the order of arrival, the merged status is that of the observation
      made last (the later arrival among equals), and exact evidence outweighs a
      mismatch, which outweighs none. */
  lemma {:induction false} MergedStatusIsLatest(first: CandidateInput, rest: seq<CandidateInput>) returns (k: nat)
    ensures Latest(first, rest, k)
    ensures MergeAll(first, rest).status == Nth(first, rest, k).status
    ensures MergeAll(first, rest).stateObservedAt == StateObservedAt(Nth(first, rest, k))
    ensures MergeAll(first, rest).evidence == EvidenceExact <==> exists j: nat | j <= |rest| :: Nth(first, rest, j).evidence == EvidenceExact
    ensures MergeAll(first, rest).evidence == EvidenceAbsent <==> forall j: nat | j <= |rest| :: Nth(first, rest, j).evidence == EvidenceAbsent
    ensures MergeAll(first, rest).state == CandidatePending
  {
    k := 0;
    if rest != [] {
      var n := |rest| - 1;
      var before := rest[..n];
      var b := MergedStatusIsLatest(first, before);
      assert forall j: nat | j <= n :: Nth(first, rest, j) == Nth(first, before, j);
      assert Nth(first, rest, n + 1) == rest[n];
      k := if StateObservedAt(rest[n]) >= MergeAll(first, before).stateObservedAt then n + 1 else b;
    }
  }

  /** The merged candidate remembers the latest window that saw it. */
  lemma {:induction false} MergedWindowIsLatest(first: CandidateInput, rest: seq<CandidateInput>)
    ensures var seen := MergeAll(first, rest).lastSeenWindowEnd;
            && (seen.None? <==> forall j: nat | j <= |rest| :: Nth(first, rest, j).windowEnd.None?)
            && (seen.Some? ==> exists j: nat | j <= |rest| :: Nth(first, rest, j).windowEnd == seen)
            && (forall j: nat | j <= |rest| :: Nth(first, rest, j).windowEnd.Some? ==>
                  seen.Some? && Nth(first, rest, j).windowEnd.value <= seen.value)
  {
    if rest == [] {
      assert Nth(first, rest, 0) == first;
    } else {
      var n := |rest| - 1;
      var before := rest[..n];
      MergedWindowIsLatest(first, before);
      assert forall j: nat | j <= n :: Nth(first, rest, j) == Nth(first, before, j);
      assert Nth(first, rest, n + 1) == rest[n];
      var earlier := MergeAll(first, before).lastSeenWindowEnd;
      if earlier.Some? {
        var j: nat :| j <= n && Nth(first, before, j).windowEnd == earlier;
        assert Nth(first, rest, j).windowEnd == earlier;
      }
    }
  }

  /** Exact evidence comes with an event. */
  predicate ExactHasEvent(first: CandidateInput, rest: seq<CandidateInput>) {
    forall j: nat | j <= |rest| :: Nth(first, rest, j).evidence == EvidenceExact ==> Nth(first, rest, j).eventAt.Some?
  }

  /** Sighting k decides the event: the last exact one if there is any, otherwise
      the newest event, the later arrival among equals. */
  predicate DecidesEvent(first: CandidateInput, rest: seq<CandidateInput>, k: nat) {
    && k <= |rest| && Nth(first, rest, k).eventAt.Some?
    && forall j: nat | j <= |rest| ::
         && (Nth(first, rest, k).evidence == EvidenceExact ==> (j > k ==> Nth(first, rest, j).evidence != EvidenceExact))
         && (Nth(first, rest, k).evidence != EvidenceExact ==>
               && Nth(first, rest, j).evidence != EvidenceExact
               && (Nth(first, rest, j).eventAt.Some? ==>
                     && Nth(first, rest, j).eventAt.value <= Nth(first, rest, k).eventAt.value
                     && (j > k ==> Nth(first, rest, j).eventAt.value < Nth(first, rest, k).eventAt.value)))
  }

  lemma {:induction false} MergedEventIsDecided(first: CandidateInput, rest: seq<CandidateInput>) returns (k: nat)
    requires ExactHasEvent(first, rest)
    ensures MergeAll(first, rest).eventAt.None? <==> forall j: nat | j <= |rest| :: Nth(first, rest, j).eventAt.None?
    ensures MergeAll(first, rest).eventAt.Some? ==> DecidesEvent(first, rest, k) && MergeAll(first, rest).eventAt == Nth(first, rest, k).eventAt
    ensures MergeAll(first, rest).eventAt.Some? ==> (MergeAll(first, rest).evidence == EvidenceExact <==> Nth(first, rest, k).evidence == EvidenceExact)
    ensures MergeAll(first, rest).eventAt.None? ==> MergeAll(first, rest).evidence != EvidenceExact
  {
    k := 0;
    if rest == [] {
      assert Nth(first, rest, 0) == first;
    } else {
      var n := |rest| - 1;
      var before, last := rest[..n], rest[n];
      assert forall j: nat | j <= n :: Nth(first, rest, j) == Nth(first, before, j);
      assert Nth(first, rest, n + 1) == last;
      k := MergedEventIsDecided(first, before);
      var c := MergeAll(first, before);
      if last.eventAt.Some? && !(c.evidence == EvidenceExact && last.evidence != EvidenceExact)
         && (last.evidence == EvidenceExact || c.eventAt.None? || last.eventAt.value >= c.eventAt.value) {
        k := n + 1;
      }
    }
  }

  // ------------------------------------------------- resolution by a scan

  /** A covered ambiguity: reconciling, possible, unlinked, never sighted, with its
      whole execution inside the scan's window. */
  predicate CoveredAmbiguity(r: Row, windowStart: Time, windowEnd: Time) {
    && r.status == ReconciliationRequired && r.effect == Possible && LinkOf(r).None? && r.execution.Some? && r.candidates == map[]
    && r.executionStartedAt.Some? && r.safeAfterAt.Some?
    && windowStart <= r.executionStartedAt.value <= r.safeAfterAt.value <= windowEnd
  }

  lemma CoveredAmbiguityResumes(r: Row, first: string, ws: Time, we: Time, now: Time)
    requires CoveredAmbiguity(r, ws, we)
    ensures var r' := Apply(r, TxResolve(false, first, ws, we, now));
            && r'.status == Executing && r'.effect == AbsenceProven && r'.executionStartedAt == Some(now)
            && r'.version == r.version + 2 && LinkOf(r').None? && AttemptsOf(r') == AttemptsOf(r) && r'.guardReleasedAt == r.guardReleasedAt
    ensures Try(r, TxResolve(false, first, ws, we, now)).Some?
  {
  }

  /** With an unresolved alert on the payment it stays where it is. */
  lemma AlertedAmbiguityStays(r: Row, first: string, ws: Time, we: Time, now: Time)
    requires CoveredAmbiguity(r, ws, we)
    ensures Try(r, TxResolve(true, first, ws, we, now)) == Some(r)
  {
  }

  /** A reconciling request with one candidate that no event has proved or
      contradicted, seen by a scan, and its execution inside the window. */
  predicate SingleCandidate(r: Row, first: string, windowStart: Time, windowEnd: Time) {
    && r.status == ReconciliationRequired && Effective(r.effect) && LinkOf(r).None? && r.execution.Some?
    && r.candidates.Keys == {first} && IsRefundId(first)
    && r.candidates[first].evidence == EvidenceAbsent && r.candidates[first].lastSeenWindowEnd.Some?
    && r.candidates[first].state != CandidateConflict
    && r.executionStartedAt.Some? && r.safeAfterAt.Some?
    && windowStart <= r.executionStartedAt.value <= r.safeAfterAt.value <= windowEnd
  }

  lemma OneCandidate(m: map<string, Candidate>, k: string)
    requires m.Keys == {k}
    ensures |m| == 1
  {
    assert |m| == |m.Keys|;
  }

  lemma SingleCandidateShape(r: Row, alert: bool, first: string, ws: Time, we: Time, now: Time)
    requires SingleCandidate(r, first, ws, we)
    ensures ResolveByScan(r, alert, first, ws, we, now)
            == match MarkRefundIdentified(r, ScanIdentification(r, first, alert), now)
               case None => None
               case Some(q) => Some(LinkCandidateIfAny(q, first, UniqueLinked))
  {
    OneCandidate(r.candidates, first);
  }

  /** The scan links the single candidate. Its status concludes the request, unless
      the payment has an unresolved alert: then the request keeps reconciling. */
  lemma SingleCandidateLinks(r: Row, alert: bool, first: string, ws: Time, we: Time, now: Time)
    requires Sound(r) && SingleCandidate(r, first, ws, we)
    ensures var tx := TxResolve(alert, first, ws, we, now);
            var r' := Apply(r, tx);
            && Try(r, tx).Some? && Stores(r', first, r.candidates[first].status)
            && r'.candidates[first].state in {UniqueLinked, ExactLinked}
            && (!alert ==> Concluded(r, r', r.candidates[first].status, now))
            && (alert ==> Preserved(r, r'))
  {
    var input := ScanIdentification(r, first, alert);
    SingleCandidateShape(r, alert, first, ws, we, now);
    if alert {
      IdentifyPreserves(r, input, now);
    } else {
      IdentifyConcludes(r, input, now);
    }
    IdentifyKeepsCandidates(r, input, now);
    var q := MarkRefundIdentified(r, input, now).value;
    OutcomeFrame(r, q, LinkCandidateIfAny(q, first, UniqueLinked), input.status, first, now);
  }

  /** Contradictory or several candidates: never linked, kept in reconciliation. */
  lemma ConflictingCandidatesStay(r: Row, alert: bool, first: string, ws: Time, we: Time, now: Time)
    requires r.status == ReconciliationRequired && LinkOf(r).None? && r.execution.Some? && first in r.candidates
    requires r.candidates[first].evidence == EvidenceMismatch || (r.candidates[first].evidence == EvidenceAbsent && |r.candidates| > 1)
    ensures var tx := TxResolve(alert, first, ws, we, now);
            && Try(r, tx).Some?
            && var r' := Apply(r, tx);
               r' == r.(candidates := r'.candidates)
               && (ScanCovers(r, ws, we) ==> forall c | c in r.candidates :: r'.candidates[c].state != CandidatePending)
  {
  }

  // -------------------------------------------------- requests and attempts

  /** What the transactions without a refund observation achieve on a row whose
      columns allow them, and that they do nothing otherwise. */
  predicate Achieves(r: Row, tx: RowTx, r': Row) {
    match tx
    case TxApprove(a) =>
      if r.status == PendingApproval && a.kind == Approve && a.decidedAt < r.snap.expiresAt
         && a.attestation.Some? && a.attestation.value.requestVersion == r.version
      then r' == r.(status := Approved, approval := Some(a), version := r.version + 1) else r' == r
    case TxReject(now) => ClosesPending(r, true, Rejected, now, r')
    case TxCancel(now) => ClosesPending(r, true, Canceled, now, r')
    case TxExpire(now) => ClosesPending(r, r.snap.expiresAt <= now, Expired, now, r')
    case TxClaim(now) =>
      if r.status == Approved
      then r' == r.(status := Executing, executionStartedAt := Some(now), version := r.version + 1) else r' == r
    case TxDivert(now) =>
      if r.status == Executing
      then && r'.status == ReconciliationRequired && r'.effect == r.effect && r'.version == r.version + 1
           && r'.safeAfterAt == Some(SafeBoundary(r, now))
           && r'.executionStartedAt == r.executionStartedAt && r'.execution == r.execution && r'.guardReleasedAt.None?
      else r' == r
    case TxRetryable(i) =>
      if r.status == Executing && r.effect == Possible && Awaiting(r, i)
      then r' == Finished(r, i, RetryableFailure).(effect := AbsenceProven, version := r.version + 1) else r' == r
    case TxAmbiguous(i, now) =>
      if r.status == Executing && Awaiting(r, i)
      then && r'.status == ReconciliationRequired && r'.effect == r.effect && r'.version == r.version + 1
           && r'.execution == Finished(r, i, AmbiguousFailure).execution
           && r'.safeAfterAt == Some(SafeBoundary(r, now))
      else r' == r
    case TxTerminalAttempt(i, now) =>
      if r.status == Executing && r.effect == Possible && Awaiting(r, i)
      then r' == Finished(r, i, TerminalFailure).(
                   status := FailedTerminal, effect := AbsenceProven, terminalAt := Some(now), guardReleasedAt := Some(now),
                   version := r.version + 2)
      else r' == r
    case TxTerminal(now) =>
      if r.status == Executing && (r.effect == NotStarted || r.effect == AbsenceProven)
      then r' == r.(status := FailedTerminal, effect := AbsenceProven, terminalAt := Some(now), guardReleasedAt := Some(now),
                    version := r.version + 1)
      else r' == r
    case TxSettle(now) =>
      if r.status == PendingApproval || r.status == Approved
      then r' == r.(status := Stale, effect := AbsenceProven, terminalAt := Some(now), guardReleasedAt := Some(now), version := r.version + 1)
      else if r.status == Executing && (r.effect == NotStarted || r.effect == AbsenceProven)
      then r' == r.(status := FailedTerminal, effect := AbsenceProven, terminalAt := Some(now), guardReleasedAt := Some(now),
                    version := r.version + 1)
      else if r.status == Executing
      then r'.status == ReconciliationRequired && r'.effect == r.effect && r'.execution == r.execution && r'.guardReleasedAt.None?
           && r'.safeAfterAt == Some(SafeBoundary(r, now)) && r'.version == r.version + 1
      else r' == r
    case TxCross(account, key, _) => AchievesCrossing(r, account, key, r')
    case _ => true
  }

  /** No earlier than now and than the start of the execution. */
  function SafeBoundary(r: Row, now: Time): Time {
    if r.executionStartedAt.Some? && now < r.executionStartedAt.value then r.executionStartedAt.value else now
  }

  predicate ClosesPending(r: Row, due: bool, status: WorkflowStatus, now: Time, r': Row) {
    if r.status == PendingApproval && due
    then r' == r.(status := status, terminalAt := Some(now), guardReleasedAt := Some(now), version := r.version + 1)
    else r' == r
  }

  predicate Awaiting(r: Row, i: nat) { i < |AttemptsOf(r)| && AttemptsOf(r)[i].state == Started }

  function Finished(r: Row, i: nat, state: AttemptState): Row
    requires Awaiting(r, i)
  {
    r.(execution := Some(r.execution.value.(attempts := AttemptsOf(r)[i := AttemptsOf(r)[i].(state := state)])))
  }

  /** A crossing starts the next attempt under the recorded key and parameters. */
  predicate AchievesCrossing(r: Row, account: string, key: string, r': Row) {
    if && r.status == Executing && LinkOf(r).None? && (r.effect == NotStarted || r.effect == AbsenceProven)
       && (r.execution.Some? ==> r.execution.value.key == key && r.execution.value.params == ParamsOf(r.snap, account))
    then && r'.status == Executing && r'.effect == Possible && r'.version == r.version + 1 && LinkOf(r').None?
         && r'.execution.Some? && r'.execution.value.key == key && r'.execution.value.params == ParamsOf(r.snap, account)
         && AttemptsOf(r') == AttemptsOf(r) + [Attempt(|AttemptsOf(r)| + 1, Started)]
         && r'.executionStartedAt == r.executionStartedAt && r'.candidates == r.candidates
    else r' == r
  }

  lemma CrossingAchieves(r: Row, account: string, key: string, now: Time)
    requires Sound(r)
    ensures AchievesCrossing(r, account, key, Apply(r, TxCross(account, key, now)))
  {
    MaxOfNumbered(AttemptsOf(r));
  }

  lemma WebTxAchieves(r: Row, tx: RowTx)
    requires Sound(r) && (tx.TxApprove? || tx.TxReject? || tx.TxCancel? || tx.TxExpire? || tx.TxClaim? || tx.TxSettle?)
    ensures Achieves(r, tx, Apply(r, tx))
  {
  }

  lemma WorkerTxAchieves(r: Row, tx: RowTx)
    requires Sound(r) && (tx.TxDivert? || tx.TxRetryable? || tx.TxAmbiguous? || tx.TxTerminalAttempt? || tx.TxTerminal?)
    ensures Achieves(r, tx, Apply(r, tx))
  {
  }

  lemma PlainTxAchieves(r: Row, tx: RowTx)
    requires Sound(r) && Plain(tx)
    ensures Achieves(r, tx, Apply(r, tx))
  {
    match tx
    case TxCross(account, key, now) => CrossingAchieves(r, account, key, now);
    case TxDivert(_) => WorkerTxAchieves(r, tx);
    case TxRetryable(_) => WorkerTxAchieves(r, tx);
    case TxAmbiguous(_, _) => WorkerTxAchieves(r, tx);
    case TxTerminalAttempt(_, _) => WorkerTxAchieves(r, tx);
    case TxTerminal(_) => WorkerTxAchieves(r, tx);
    case _ => WebTxAchieves(r, tx);
  }

  // ----------------------------------------- no settled refund is left open

  /** An executing request with a linked refund knows that it is still open. */
  predicate Attended(r: Row) {
    r.status == Executing && LinkOf(r).Some? ==> RefundStatusOf(r) in {Some(RefundPending), Some(RefundRequiresAction)}
  }

  lemma IdentifyAttends(r: Row, input: Identification, now: Time)
    requires Sound(r) && Attended(r) && MarkRefundIdentified(r, input, now).Some?
    ensures Attended(MarkRefundIdentified(r, input, now).value)
  {
  }

  lemma AttendedFrame(r: Row, r': Row)
    requires r'.status == r.status && LinkOf(r') == LinkOf(r) && RefundStatusOf(r') == RefundStatusOf(r)
    ensures Attended(r) == Attended(r')
  {
  }

  lemma ObservedAsAttends(r: Row, r': Row, input: Identification, now: Time)
    requires Sound(r) && Attended(r) && ObservedAs(r, r', input, now)
    ensures Attended(r')
  {
    if MarkRefundIdentified(r, input, now).Some? {
      IdentifyAttends(r, input, now);
    }
  }

  lemma SightingAttends(r: Row, account: string, o: Sighting, now: Time)
    requires Sound(r) && Attended(r) && Observe(r, account, o, now).Some?
    ensures Attended(Observe(r, account, o, now).value.row)
  {
    ObservationShape(r, account, o, now);
    ObservedAsAttends(r, Observe(r, account, o, now).value.row, IdentificationOf(o), now);
  }

  lemma ResolutionAttends(r: Row, alert: bool, first: string, ws: Time, we: Time, now: Time)
    requires Sound(r) && Attended(r) && ResolveByScan(r, alert, first, ws, we, now).Some?
    ensures Attended(ResolveByScan(r, alert, first, ws, we, now).value)
  {
    ResolutionShape(r, alert, first, ws, we, now);
    var r' := ResolveByScan(r, alert, first, ws, we, now).value;
    if first in r.candidates && ObservedAs(r, r', ScanIdentification(r, first, alert), now) {
      ObservedAsAttends(r, r', ScanIdentification(r, first, alert), now);
    }
  }

  lemma AnswerAttends(r: Row, i: nat, id: string, status: Option<RefundStatus>, now: Time)
    requires Sound(r) && Attended(r) && RecordIdentified(r, i, id, status, now).Some?
    ensures Attended(RecordIdentified(r, i, id, status, now).value)
  {
    var q := MarkRefundIdentified(r, Identification(id, status, false, None), now).value;
    IdentifyAttends(r, Identification(id, status, false, None), now);
    AttendedFrame(q, RecordIdentified(r, i, id, status, now).value);
  }

  lemma PlainTxAttends(r: Row, tx: RowTx)
    requires Sound(r) && Attended(r) && Plain(tx) && Try(r, tx).Some?
    ensures Attended(Try(r, tx).value)
  {
  }

  lemma TxAttends(r: Row, tx: RowTx)
    requires Sound(r) && Attended(r)
    ensures Attended(Apply(r, tx))
  {
    if Try(r, tx).Some? {
      match tx
      case TxObserve(account, o, now) => SightingAttends(r, account, o, now);
      case TxResolve(alert, first, ws, we, now) => ResolutionAttends(r, alert, first, ws, we, now);
      case TxIdentified(i, id, status, now) => AnswerAttends(r, i, id, status, now);
      case TxRefresh(id, _, _, status, now) =>
        IdentifyAttends(r, Identification(id, status, status.Some? && !Unsettled(status), None), now);
      case _ => PlainTxAttends(r, tx);
    }
  }

  /** Over every run a request that is still executing has no settled refund: as
      soon as a settled status is stored the request leaves execution. */
  lemma {:induction false} EveryExecutingRequestIsOpen(snap: Snapshot, txs: seq<RowTx>)
    ensures Attended(Run(NewRow(snap), txs))
    ensures Run(NewRow(snap), txs).status == Executing ==> Unsettled(RefundStatusOf(Run(NewRow(snap), txs)))
  {
    RunKeepsSound(NewRow(snap), txs);
    if txs != [] {
      EveryExecutingRequestIsOpen(snap, txs[..|txs| - 1]);
      RunKeepsSound(NewRow(snap), txs[..|txs| - 1]);
      TxAttends(Run(NewRow(snap), txs[..|txs| - 1]), txs[|txs| - 1]);
    }
  }

  // -------------------------------------------- when a scan cannot commit

  /** A single unproven candidate of a request whose effect was declared absent. */
  predicate Stuck(r: Row, alert: bool, first: string, ws: Time, we: Time) {
    && r.status == ReconciliationRequired && !Effective(r.effect) && !alert && LinkOf(r).None? && r.execution.Some?
    && ScanCovers(r, ws, we) && first in r.candidates && |r.candidates| == 1
    && r.candidates[first].evidence == EvidenceAbsent && r.candidates[first].lastSeenWindowEnd.Some?
    && r.candidates[first].state != CandidateConflict
  }

  /** Exactly when the resolution of one request makes the whole commit fail: when
      its effect was declared absent and yet one refund of it was sighted. */
  lemma ResolutionThrowsIff(r: Row, alert: bool, first: string, ws: Time, we: Time, now: Time)
    requires Sound(r)
    requires if r.candidates == map[] then r.status == ReconciliationRequired && r.effect == Possible
             else first in r.candidates && IsRefundId(first)
    ensures Try(r, TxResolve(alert, first, ws, we, now)).None? <==> Stuck(r, alert, first, ws, we)
  {
    if first in r.candidates && r.execution.Some? && LinkOf(r).None? {
      SingletonCount(r.candidates, first);
      FirstLinkIsRefusedIff(r, ScanIdentification(r, first, alert), now);
    }
  }

  /** A first link is refused only to a running request without an effect. */
  lemma FirstLinkIsRefusedIff(r: Row, input: Identification, now: Time)
    requires Sound(r) && r.execution.Some? && LinkOf(r).None? && IsRefundId(input.refundId)
    ensures MarkRefundIdentified(r, input, now).None? <==>
              Running(r.status) && !Effective(r.effect) && !(r.status == ReconciliationRequired && !input.resolve)
  {
  }

  /** Such a request exists: a retryable refusal declares the effect absent, then
      an unproven sighting of a refund diverts the request. */
  lemma RefusedThenSightedIsStuck(r: Row, i: nat, account: string, o: Sighting, now: Time)
    requires Sound(r) && r.status == Executing && r.effect == Possible && LinkOf(r).None? && Awaiting(r, i)
    requires GenuineSighting(r, account, o) && o.source.Scan? && r.executionStartedAt.value <= o.source.windowEnd
    ensures var r1 := Apply(r, TxRetryable(i));
            var r2 := Apply(r1, TxObserve(account, o, now));
            now <= o.source.windowEnd ==> Stuck(r2, false, o.refundId, r.executionStartedAt.value, o.source.windowEnd)
  {
    PlainTxAchieves(r, TxRetryable(i));
    var r1 := Apply(r, TxRetryable(i));
    TxKeepsSound(r, TxRetryable(i));
    FreshSightingDiverts(r1, account, o, now);
  }

  /** The first sighting of an executing request, from a scan. */
  lemma FreshSightingDiverts(r: Row, account: string, o: Sighting, now: Time)
    requires Sound(r) && r.status == Executing && LinkOf(r).None? && r.execution.Some?
    requires GenuineSighting(r, account, o) && o.source.Scan?
    ensures var r' := Apply(r, TxObserve(account, o, now));
            && r'.status == ReconciliationRequired && r'.effect == r.effect && LinkOf(r').None? && r'.execution == r.execution
            && r'.executionStartedAt == r.executionStartedAt && r'.safeAfterAt == Some(SafeBoundary(r, now))
            && o.refundId in r'.candidates && |r'.candidates| == 1
            && r'.candidates[o.refundId].evidence == EvidenceAbsent && r'.candidates[o.refundId].state == CandidatePending
            && r'.candidates[o.refundId].lastSeenWindowEnd == Some(o.source.windowEnd)
  {
    ClassificationIff(r, account, o);
    var input := InputOf(r, o, now);
    var c := MergeCandidate(FreshCandidate(input), input);
    assert RecordCandidate(r, o.refundId, input) == Some(r.(candidates := map[o.refundId := c])) by {
      assert r.candidates == map[];
      OneCandidate(map[o.refundId := c], o.refundId);
    }
  }
}
