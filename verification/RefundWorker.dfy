/** The refund execution job, step by step over the store and Stripe, with a
    crash allowed at every hook. Each step it takes is an event of the
    transition system of StripeEffects, so every run of jobs inherits its
    theorems. */
module RefundWorker {
  import opened Prelude
  import opened Domain
  import opened Observation
  import opened Execution
  import opened RefundRow
  import opened Tenant
  import opened RowInvariant
  import opened RowTheorems
  import opened TenantTheorems
  import opened TenantOutcomes
  import opened StripeEffects
  import opened StripeFailure
  import opened WorkerStore

  datatype CrashPoint = Never | BeforeBoundary | AfterBoundary | AfterResponse

  /** What revalidating the payment found. */
  datatype Preflight = Eligible | Ineligible | PaymentError(error: StripeError)

  /** How the call to Stripe went: `version` is the signing version of its proof,
      `first` what Stripe does if it never saw the key, `lost` the error that
      replaced its answer, if any, and `refusal` its error when it creates nothing. */
  datatype Call = Call(version: string, first: FirstUse, lost: Option<StripeError>, refusal: StripeError)

  /** Stripe's error for a key reused with other parameters. */
  const KEY_REUSED := StripeError(Some("StripeIdempotencyError"), Some("idempotency_error"), None, Some(400))

  /** The error the worker catches, if the call did not return a refund. */
  function CaughtError(call: Call, result: CallResult): Option<StripeError> {
    if call.lost.Some? then call.lost
    else
      match result
      case Returns(_) => None
      case ParameterConflict => Some(KEY_REUSED)
      case NoRefund => Some(call.refusal)
  }

  datatype Outcome =
    | NothingToDo | Retry | PreflightRecorded | Stopped(decision: BoundaryDecision) | Crashed(at: CrashPoint)
    | FailureRecorded(verdict: Class) | AnswerRecorded(refundId: string) | StoreThrew

  /** What everybody else does between two steps of the job: web users, other
      jobs, webhooks, scans, deauthorizations, repeated sends of this call. */
  datatype Meanwhile = Meanwhile(beforeBoundary: seq<Event>, beforeCall: seq<Event>, beforeRecord: seq<Event>)

  /** Everything about one job that is not decided by the worker. */
  datatype Conditions = Conditions(
    now: Time, preflight: Preflight, crash: CrashPoint, call: Call,
    status: Option<RefundStatus>, responseMatches: bool, others: seq<string>, meanwhile: Meanwhile)

  predicate Undisturbed(c: Conditions) { c.meanwhile == Meanwhile([], [], []) }

  /** The transaction that records a failure of a class. */
  function FailureTx(verdict: Class, attempt: nat, now: Time): RowTx {
    match verdict
    case Ambiguous => TxAmbiguous(attempt, now)
    case Terminal => TxTerminalAttempt(attempt, now)
    case Retryable => TxRetryable(attempt)
  }

  /** What is recorded about a reply: the failure transaction of the caught error's
      class, or the refund that Stripe returned; nothing if the worker dies first. */
  function RecordOf(id: string, attempt: nat, c: Conditions, result: CallResult): seq<Event> {
    match CaughtError(c.call, result)
    case Some(e) => [Act(Action.Outcome(id, FailureTx(NormalizeStripeFailure(e, true), attempt, c.now)))]
    case None =>
      if c.crash == AfterResponse || !result.Returns? then []
      else [Act(Answer(id, attempt, KeyOf(id), result.refund.id, c.status, c.responseMatches, c.others, c.now))]
  }

  /** The outcome that goes with it, unless the store threw. */
  predicate Reported(c: Conditions, result: CallResult, outcome: Outcome) {
    match CaughtError(c.call, result)
    case Some(e) => outcome == FailureRecorded(NormalizeStripeFailure(e, true)) || outcome == StoreThrew
    case None =>
      if c.crash == AfterResponse then outcome == Crashed(AfterResponse)
      else result.Returns? && (outcome == AnswerRecorded(result.refund.id) || outcome == StoreThrew)
  }

  /** The store refuses what is to be recorded about a reply. */
  predicate Refused(db: Db, id: string, attempt: nat, c: Conditions, result: CallResult) {
    match CaughtError(c.call, result)
    case Some(e) => RecordOutcome(db, id, FailureTx(NormalizeStripeFailure(e, true), attempt, c.now)).None?
    case None =>
      c.crash != AfterResponse && result.Returns?
      && RecordIdentifiedRefund(db, id, attempt, KeyOf(id), result.refund.id, c.status, c.responseMatches, c.others, c.now).None?
  }

  function StatusAfterFailure(verdict: Class): WorkflowStatus {
    match verdict
    case Ambiguous => ReconciliationRequired
    case Terminal => FailedTerminal
    case Retryable => Executing
  }

  /** How a request nobody else touched ends: by the class of its error, or by the
      status of the refund that Stripe returned. */
  predicate Finishes(c: Conditions, outcome: Outcome, result: CallResult, db: Db, id: string) {
    match CaughtError(c.call, result)
    case Some(e) =>
      var verdict := NormalizeStripeFailure(e, true);
      outcome == FailureRecorded(verdict) && id in db.rows && db.rows[id].status == StatusAfterFailure(verdict)
    case None =>
      c.crash != AfterResponse && result.Returns? && IsRefundId(result.refund.id) && Unsighted(c, db, id) ==>
        && outcome == AnswerRecorded(result.refund.id)
        && db.rows[id].status == StatusAfter(if c.responseMatches then c.status else None)
  }

  /** No refund was ever sighted for the request. */
  predicate Unsighted(c: Conditions, db: Db, id: string) {
    c.others == [] && id in db.rows && db.rows[id].candidates == map[]
  }

  predicate Linked(db: Db, id: string, refundId: string) { id in db.rows && LinkOf(db.rows[id]) == Some(refundId) }

  /** Revalidating the payment failed with an error worth retrying. */
  predicate WillRetry(c: Conditions) {
    c.preflight.PaymentError? && NormalizeStripeFailure(c.preflight.error, false) == Retryable
  }

  /** Loading would hand out a record for this request. */
  predicate Available(db: Db, id: string, now: Time) {
    RefundIdempotencyKey(id).Some? && HandedOut(LoadRefundExecution(db, id, KeyOf(id), now), id, KeyOf(id))
  }

  /** What the job did with a record it was handed: without eligibility it retries
      or closes the request; with it, undisturbed and alive up to the call, it sends;
      a reply is reported for what it is, and a recorded refund is linked. */
  predicate Handled(c: Conditions, outcome: Outcome, reply: Option<CallResult>, db: Db, id: string) {
    && (!c.preflight.Eligible? ==>
          if WillRetry(c) then outcome == Retry
          else outcome == PreflightRecorded && id in db.rows && db.rows[id].status == FailedTerminal)
    && (c.preflight.Eligible? && Undisturbed(c) && c.crash != BeforeBoundary && c.crash != AfterBoundary ==> reply.Some?)
    && (reply.Some? ==> Reported(c, reply.value, outcome))
    && (Undisturbed(c) && reply.Some? ==> Finishes(c, outcome, reply.value, db, id))
    && (outcome.AnswerRecorded? ==> reply.Some? && Linked(db, id, outcome.refundId))
  }

  /** Exactly one crossing, one call and the record of its reply. */
  ghost predicate Traced(events: seq<Event>, before: seq<Event>, j: nat, id: string, c: Conditions, result: CallResult) {
    exists attempt: nat ::
      events == before + [CrossJob(j, c.now)] + [CallStripe(j, c.call.version, c.call.first)] + RecordOf(id, attempt, c, result)
  }

  /** At most one refund a request, and only for requests that durably recorded
      its key and parameters before. */
  predicate Safe(w: World) {
    && (forall i, j | 0 <= i < |w.stripe.refunds| && 0 <= j < |w.stripe.refunds| ::
          w.stripe.refunds[i].params.requestId == w.stripe.refunds[j].params.requestId ==> i == j)
    && (forall i | 0 <= i < |w.stripe.refunds| :: WrittenAhead(w.db, w.stripe.refunds[i]))
  }

  lemma RunIsSafe(db: Db, events: seq<Event>)
    requires HonestRun(Fresh(db), events)
    ensures Safe(RunWorld(Fresh(db), events))
  {
    var w := RunWorld(Fresh(db), events);
    forall i, j | 0 <= i < |w.stripe.refunds| && 0 <= j < |w.stripe.refunds|
      ensures w.stripe.refunds[i].params.requestId == w.stripe.refunds[j].params.requestId ==> i == j
    {
      if w.stripe.refunds[i].params.requestId == w.stripe.refunds[j].params.requestId {
        AtMostOneRefundPerRequest(db, events, i, j);
      }
    }
    forall i | 0 <= i < |w.stripe.refunds|
      ensures WrittenAhead(w.db, w.stripe.refunds[i])
    {
      EveryRefundIsWrittenAhead(db, events, i);
    }
  }

  lemma HandedOutExecutes(db: Db, events: seq<Event>, id: string, now: Time)
    requires HonestRun(Fresh(db), events)
    ensures var reached := RunWorld(Fresh(db), events).db;
            HandedOut(reached, id, KeyOf(id)) ==> PersistEffectBoundary(reached, id, KeyOf(id), now).1.Execute?
  {
    var reached := RunWorld(Fresh(db), events).db;
    if HandedOut(reached, id, KeyOf(id)) {
      RunKeepsRowsSound(db, events);
      HandedOutMayCross(reached, id, KeyOf(id));
      BoundaryNeverThrows(db, events, id, now);
    }
  }

  lemma AnswerLinksHere(db: Db, events: seq<Event>, id: string, attempt: nat, refundId: string, c: Conditions)
    requires HonestRun(Fresh(db), events)
    ensures var o := RecordIdentifiedRefund(RunWorld(Fresh(db), events).db, id, attempt, KeyOf(id), refundId, c.status,
                                            c.responseMatches, c.others, c.now);
            o.Some? ==> Linked(o.value, id, refundId)
  {
    var reached := RunWorld(Fresh(db), events).db;
    if RecordIdentifiedRefund(reached, id, attempt, KeyOf(id), refundId, c.status, c.responseMatches, c.others, c.now).Some? {
      RunKeepsRowsSound(db, events);
      RecordedAnswerLinks(reached, id, attempt, KeyOf(id), refundId, c.status, c.responseMatches, c.others, c.now);
    }
  }

  lemma CrossingIsUnderway(db: Db, events: seq<Event>, id: string, now: Time)
    requires HonestRun(Fresh(db), events)
    ensures var (db', decision) := PersistEffectBoundary(RunWorld(Fresh(db), events).db, id, KeyOf(id), now);
            decision.Execute? ==> Underway(db', id, KeyOf(id), decision.attempt)
  {
    var reached := RunWorld(Fresh(db), events).db;
    if PersistEffectBoundary(reached, id, KeyOf(id), now).1.Execute? {
      RunKeepsRowsSound(db, events);
      ExecuteIsUnderway(reached, id, KeyOf(id), now);
    }
  }

  lemma FailureFinishes(db: Db, events: seq<Event>, id: string, attempt: nat, verdict: Class, now: Time)
    requires HonestRun(Fresh(db), events)
    ensures var reached := RunWorld(Fresh(db), events).db;
            var o := RecordOutcome(reached, id, FailureTx(verdict, attempt, now));
            Underway(reached, id, KeyOf(id), attempt) ==>
              o.Some? && id in o.value.rows && o.value.rows[id].status == StatusAfterFailure(verdict)
  {
    var reached := RunWorld(Fresh(db), events).db;
    if Underway(reached, id, KeyOf(id), attempt) {
      RunKeepsRowsSound(db, events);
      FailureIsRecorded(reached, id, KeyOf(id), attempt, FailureTx(verdict, attempt, now));
    }
  }

  lemma AnswerFinishes(db: Db, events: seq<Event>, id: string, attempt: nat, refundId: string, c: Conditions)
    requires HonestRun(Fresh(db), events)
    ensures var reached := RunWorld(Fresh(db), events).db;
            var o := RecordIdentifiedRefund(reached, id, attempt, KeyOf(id), refundId, c.status, c.responseMatches, c.others, c.now);
            Underway(reached, id, KeyOf(id), attempt) && IsRefundId(refundId) && Unsighted(c, OrSame(reached, o), id) ==>
              o.Some? && id in o.value.rows && o.value.rows[id].status == StatusAfter(if c.responseMatches then c.status else None)
  {
    var reached := RunWorld(Fresh(db), events).db;
    var o := RecordIdentifiedRefund(reached, id, attempt, KeyOf(id), refundId, c.status, c.responseMatches, c.others, c.now);
    if Underway(reached, id, KeyOf(id), attempt) && IsRefundId(refundId) && Unsighted(c, OrSame(reached, o), id) {
      if o.Some? {
        AnswerKeepsSightings(reached, id, attempt, refundId, c);
      }
      RunKeepsRowsSound(db, events);
      AnswerIsRecorded(reached, id, attempt, KeyOf(id), refundId, c.status, c.responseMatches, c.now);
    }
  }

  lemma AnswerKeepsSightings(db: Db, id: string, attempt: nat, refundId: string, c: Conditions)
    requires RecordIdentifiedRefund(db, id, attempt, KeyOf(id), refundId, c.status, c.responseMatches, c.others, c.now).Some? && c.others == []
    ensures var db' := RecordIdentifiedRefund(db, id, attempt, KeyOf(id), refundId, c.status, c.responseMatches, c.others, c.now).value;
            id in db.rows && id in db'.rows && (db'.rows[id].candidates == map[] ==> db.rows[id].candidates == map[])
  {
    AnswerShape(db, id, attempt, KeyOf(id), refundId, c.status, c.responseMatches, c.others, c.now);
    IdentifyKeepsCandidates(db.rows[id], Identification(refundId, if c.responseMatches then c.status else None, false, None), c.now);
  }

  lemma TraceOf(
    events: seq<Event>, before: seq<Event>, crossed: seq<Event>, j: nat, id: string, attempt: nat, c: Conditions, result: CallResult)
    requires crossed == before + [CrossJob(j, c.now)]
    requires events == crossed + [CallStripe(j, c.call.version, c.call.first)] + RecordOf(id, attempt, c, result)
    ensures Traced(events, before, j, id, c, result)
  {
  }

  predicate NoCalls(events: seq<Event>, since: nat) { forall k | since <= k < |events| :: !events[k].CallStripe? }

  lemma OnlyOwnCrossingMovesJob(w: World, e: Event, j: nat)
    requires j < |w.jobs| && !(e.CrossJob? && e.job == j)
    ensures j < |Next(w, e).jobs| && Next(w, e).jobs[j] == w.jobs[j]
  {
  }

  class Worker {
    const store: TenantStore
    var stripe: Stripe
    /** The jobs that loaded a record, and what their calls got. */
    var jobs: seq<Job>
    var results: seq<Reply>
    ghost var start: Db
    ghost var events: seq<Event>

    function State(): World
      reads this, store
    {
      World(store.Contents(), stripe, jobs, results)
    }

    /** The present state is reached by an honest run of events. */
    ghost predicate Valid()
      reads this, store
    {
      HonestRun(Fresh(start), events) && State() == RunWorld(Fresh(start), events)
    }

    constructor (db: Db)
      ensures Valid() && events == [] && fresh(store) && stripe.refunds == []
    {
      store := new TenantStore(db.(rows := map[]));
      stripe := Stripe(map[], []);
      jobs, results, start, events := [], [], db, [];
    }

    /** Records that the last change was the event `e`. */
    ghost method Happened(e: Event, before: World)
      requires HonestRun(Fresh(start), events) && before == RunWorld(Fresh(start), events)
      requires Honest(before, e) && State() == Next(before, e)
      modifies this`events
      ensures Valid() && events == old(events) + [e]
    {
      events := events + [e];
      assert events[..|events| - 1] == old(events);
    }

    /** The parameters of the record that was handed out, if any. */
    method Load(id: string, now: Time) returns (record: Option<Params>)
      requires Valid()
      modifies this`jobs, this`events, store
      ensures Valid() && events == old(events) + [StartJob(id, now)]
      ensures record.Some? <==>
                RefundIdempotencyKey(id).Some? && HandedOut(LoadRefundExecution(old(store.Contents()), id, KeyOf(id), now), id, KeyOf(id))
      ensures record.Some? ==> HandedOut(store.Contents(), id, KeyOf(id))
      ensures jobs == if record.Some? then old(jobs) + [Job(id, record.value, Loaded)] else old(jobs)
    {
      ghost var before := State();
      record := None;
      if RefundIdempotencyKey(id).Some? {
        var loaded := store.LoadExecution(id, KeyOf(id), now);
        if loaded {
          var s := store.rows[id].snap;
          record := Some(ParamsOf(s, Account(store.Contents(), s)));
          jobs := jobs + [Job(id, record.value, Loaded)];
        }
      }
      Happened(StartJob(id, now), before);
    }

    method Boundary(id: string, j: nat, now: Time) returns (decision: BoundaryDecision)
      requires Valid() && j < |jobs| && jobs[j].id == id && jobs[j].stage == Loaded
      modifies this`jobs, this`events, store
      ensures Valid() && events == old(events) + [CrossJob(j, now)]
      ensures HandedOut(old(store.Contents()), id, KeyOf(id)) ==> decision.Execute?
      ensures decision.Execute? ==> Underway(store.Contents(), id, KeyOf(id), decision.attempt)
      ensures jobs == if decision.Execute? then old(jobs)[j := old(jobs)[j].(stage := Crossed(decision.attempt))] else old(jobs)
    {
      ghost var before := State();
      HandedOutExecutes(start, events, id, now);
      CrossingIsUnderway(start, events, id, now);
      decision := store.PersistBoundary(id, KeyOf(id), now);
      if decision.Execute? {
        jobs := jobs[j := jobs[j].(stage := Crossed(decision.attempt))];
      }
      Happened(CrossJob(j, now), before);
    }

    /** One request on the wire: Stripe acts on it whether or not its answer
        arrives. It conflicts only with a refund signed under another version. */
    method Send(j: nat, version: string, first: FirstUse) returns (result: CallResult)
      requires Valid() && j < |jobs| && jobs[j].stage.Crossed?
      modifies this`stripe, this`results, this`events
      ensures Valid() && events == old(events) + [CallStripe(j, version, first)]
      ensures result == CreateRefund(old(stripe), KeyOf(jobs[j].id), jobs[j].params, version, first).1
      ensures result.ParameterConflict? <==>
                KeyOf(jobs[j].id) in old(stripe).byKey && old(stripe).byKey[KeyOf(jobs[j].id)].proofVersion != version
    {
      ghost var before := State();
      CallConflictsIffRotated(start, events, j, version, first);
      var (s', r) := CreateRefund(stripe, KeyOf(jobs[j].id), jobs[j].params, version, first);
      stripe, result := s', r;
      results := results + [Reply(jobs[j].id, version, r)];
      Happened(CallStripe(j, version, first), before);
    }

    /** Anybody else's events, in order; job `j` stays where it is. */
    method Interfere(others: seq<Event>, j: nat)
      requires Valid() && j < |jobs|
      modifies this`stripe, this`jobs, this`results, this`events, store
      ensures Valid() && old(events) <= events && j < |jobs| && jobs[j] == old(jobs)[j]
      ensures others == [] ==>
                stripe == old(stripe) && events == old(events) && jobs == old(jobs) && store.Contents() == old(store.Contents())
    {
      var k := 0;
      while k < |others|
        invariant k <= |others| && Valid() && old(events) <= events && j < |jobs| && jobs[j] == old(jobs)[j]
        invariant k == 0 ==>
                    stripe == old(stripe) && events == old(events) && jobs == old(jobs) && store.Contents() == old(store.Contents())
      {
        Accept(others[k], j);
        k := k + 1;
      }
    }

    /** One event of somebody else, if it is honest and not this job's crossing. */
    method Accept(e: Event, j: nat)
      requires Valid() && j < |jobs|
      modifies this`stripe, this`jobs, this`results, this`events, store
      ensures Valid() && old(events) <= events && j < |jobs| && jobs[j] == old(jobs)[j]
    {
      if !Honest(State(), e) || (e.CrossJob? && e.job == j) {
        return;
      }
      ghost var before := State();
      OnlyOwnCrossingMovesJob(before, e, j);
      var w := Next(State(), e);
      store.Rollback(w.db);
      stripe, jobs, results := w.stripe, w.jobs, w.results;
      Happened(e, before);
    }

    /** Closes a request whose payment cannot be refunded any more. */
    method RecordPreflight(id: string, now: Time) returns (threw: bool)
      requires Valid() && HandedOut(store.Contents(), id, KeyOf(id))
      modifies this`events, store
      ensures Valid() && events == old(events) + [Act(Action.Outcome(id, TxTerminal(now)))]
      ensures !threw && id in store.rows && store.rows[id].status == FailedTerminal
    {
      ghost var before := State();
      RunKeepsRowsSound(start, events);
      HandedOutFailsTerminally(store.Contents(), id, KeyOf(id), now);
      threw := store.RecordTerminalWithoutEffect(id, now);
      Happened(Act(Action.Outcome(id, TxTerminal(now))), before);
    }

    method RecordAmbiguous(id: string, attempt: nat, now: Time) returns (threw: bool)
      requires Valid()
      modifies this`events, store
      ensures Valid() && events == old(events) + [Act(Action.Outcome(id, TxAmbiguous(attempt, now)))]
      ensures threw <==> Tenant.RecordOutcome(old(store.Contents()), id, TxAmbiguous(attempt, now)).None?
      ensures store.Contents() == OrSame(old(store.Contents()), Tenant.RecordOutcome(old(store.Contents()), id, TxAmbiguous(attempt, now)))
    {
      ghost var before := State();
      threw := store.RecordAmbiguousAttemptFailure(id, attempt, now);
      Happened(Act(Action.Outcome(id, TxAmbiguous(attempt, now))), before);
    }

    method RecordTerminal(id: string, attempt: nat, now: Time) returns (threw: bool)
      requires Valid()
      modifies this`events, store
      ensures Valid() && events == old(events) + [Act(Action.Outcome(id, TxTerminalAttempt(attempt, now)))]
      ensures threw <==> Tenant.RecordOutcome(old(store.Contents()), id, TxTerminalAttempt(attempt, now)).None?
      ensures store.Contents() == OrSame(old(store.Contents()), Tenant.RecordOutcome(old(store.Contents()), id, TxTerminalAttempt(attempt, now)))
    {
      ghost var before := State();
      threw := store.RecordTerminalAttemptWithoutEffect(id, attempt, now);
      Happened(Act(Action.Outcome(id, TxTerminalAttempt(attempt, now))), before);
    }

    method RecordRetryable(id: string, attempt: nat) returns (threw: bool)
      requires Valid()
      modifies this`events, store
      ensures Valid() && events == old(events) + [Act(Action.Outcome(id, TxRetryable(attempt)))]
      ensures threw <==> Tenant.RecordOutcome(old(store.Contents()), id, TxRetryable(attempt)).None?
      ensures store.Contents() == OrSame(old(store.Contents()), Tenant.RecordOutcome(old(store.Contents()), id, TxRetryable(attempt)))
    {
      ghost var before := State();
      threw := store.RecordRetryableAttemptFailure(id, attempt);
      Happened(Act(Action.Outcome(id, TxRetryable(attempt))), before);
    }

    method RecordFailure(id: string, attempt: nat, verdict: Class, now: Time) returns (threw: bool)
      requires Valid()
      modifies this`events, store
      ensures Valid() && events == old(events) + [Act(Action.Outcome(id, FailureTx(verdict, attempt, now)))]
      ensures threw <==> Tenant.RecordOutcome(old(store.Contents()), id, FailureTx(verdict, attempt, now)).None?
      ensures store.Contents() == OrSame(old(store.Contents()), Tenant.RecordOutcome(old(store.Contents()), id, FailureTx(verdict, attempt, now)))
    {
      match verdict
      case Ambiguous => threw := RecordAmbiguous(id, attempt, now);
      case Terminal => threw := RecordTerminal(id, attempt, now);
      case Retryable => threw := RecordRetryable(id, attempt);
    }

    method RecordAnswer(id: string, attempt: nat, refundId: string, c: Conditions) returns (threw: bool)
      requires Valid()
      modifies this`events, store
      ensures Valid()
      ensures events == old(events) + [Act(Answer(id, attempt, KeyOf(id), refundId, c.status, c.responseMatches, c.others, c.now))]
      ensures threw <==> RecordIdentifiedRefund(old(store.Contents()), id, attempt, KeyOf(id), refundId, c.status, c.responseMatches,
                                                c.others, c.now).None?
      ensures store.Contents()
              == OrSame(old(store.Contents()), RecordIdentifiedRefund(old(store.Contents()), id, attempt, KeyOf(id), refundId, c.status,
                                                                      c.responseMatches, c.others, c.now))
      ensures !threw ==> Linked(store.Contents(), id, refundId)
    {
      ghost var before := State();
      AnswerLinksHere(start, events, id, attempt, refundId, c);
      threw := store.RecordIdentified(id, attempt, KeyOf(id), refundId, c.status, c.responseMatches, c.others, c.now);
      Happened(Act(Answer(id, attempt, KeyOf(id), refundId, c.status, c.responseMatches, c.others, c.now)), before);
    }

    /** The call and what is recorded about it: exactly one send, then exactly the
        record that goes with its reply. An answer that got lost is classified by
        the error that replaced it; a reused key is ambiguous; absence is recorded
        only for a definite refusal; a returned refund ends up linked. */
    method CallAndRecord(j: nat, attempt: nat, c: Conditions) returns (outcome: Outcome, result: CallResult)
      requires Valid() && j < |jobs| && jobs[j].stage.Crossed?
      modifies this`stripe, this`jobs, this`results, this`events, store
      ensures Valid() && old(events) + [CallStripe(j, c.call.version, c.call.first)] <= events
      ensures result == CreateRefund(old(stripe), KeyOf(old(jobs)[j].id), old(jobs)[j].params, c.call.version, c.call.first).1
      ensures Reported(c, result, outcome)
      ensures var recorded := RecordOf(old(jobs)[j].id, attempt, c, result);
              && |recorded| < |events| && events[|events| - |recorded|..] == recorded
              && (Undisturbed(c) ==> events == old(events) + [CallStripe(j, c.call.version, c.call.first)] + recorded)
      ensures Undisturbed(c) ==> (outcome.StoreThrew? <==> Refused(old(store.Contents()), old(jobs)[j].id, attempt, c, result))
      ensures var id := old(jobs)[j].id;
              Undisturbed(c) && Underway(old(store.Contents()), id, KeyOf(id), attempt) ==>
                Finishes(c, outcome, result, store.Contents(), id)
      ensures outcome.FailureRecorded? && outcome.verdict != Ambiguous ==>
                DefiniteRefusal(if c.call.lost.Some? then c.call.lost.value else c.call.refusal)
      ensures outcome.AnswerRecorded? ==> Linked(store.Contents(), old(jobs)[j].id, outcome.refundId)
    {
      var id := jobs[j].id;
      result := Send(j, c.call.version, c.call.first);
      Interfere(c.meanwhile.beforeRecord, j);
      outcome := RecordReply(id, attempt, result, c);
    }

    method RecordReply(id: string, attempt: nat, result: CallResult, c: Conditions) returns (outcome: Outcome)
      requires Valid()
      modifies this`events, store
      ensures Valid() && events == old(events) + RecordOf(id, attempt, c, result)
      ensures Reported(c, result, outcome)
      ensures outcome.StoreThrew? <==> Refused(old(store.Contents()), id, attempt, c, result)
      ensures Underway(old(store.Contents()), id, KeyOf(id), attempt) ==> Finishes(c, outcome, result, store.Contents(), id)
      ensures outcome.FailureRecorded? && outcome.verdict != Ambiguous ==>
                DefiniteRefusal(if c.call.lost.Some? then c.call.lost.value else c.call.refusal)
      ensures outcome.AnswerRecorded? ==> Linked(store.Contents(), id, outcome.refundId)
    {
      var error := CaughtError(c.call, result);
      if error.Some? {
        AbsenceIsClaimedExactlyForRefusals(error.value);
        var verdict := NormalizeStripeFailure(error.value, true);
        FailureFinishes(start, events, id, attempt, verdict, c.now);
        var threw := RecordFailure(id, attempt, verdict, c.now);
        return if threw then StoreThrew else FailureRecorded(verdict);
      }
      if c.crash == CrashPoint.AfterResponse {
        return Crashed(c.crash);
      }
      AnswerFinishes(start, events, id, attempt, result.refund.id, c);
      var threw := RecordAnswer(id, attempt, result.refund.id, c);
      outcome := if threw then StoreThrew else AnswerRecorded(result.refund.id);
    }

    /** One execution job. Whatever the conditions, whoever acts between its steps,
        whenever it crashes and however many jobs came before, Stripe holds at
        most one refund of any request, and only for requests that had crossed.
        What the job does is exact: nothing without a record; without eligibility it
        retries or closes the request; with it, undisturbed and alive, it crosses,
        sends once and records the reply. `reply` is what its call got, if sent. */
    method HandleRefundExecutionJob(id: string, c: Conditions) returns (outcome: Outcome, reply: Option<CallResult>)
      requires Valid()
      modifies this, store
      ensures Valid() && start == old(start) && old(events) <= events
      ensures Safe(State())
      ensures outcome.NothingToDo? <==> !Available(old(store.Contents()), id, c.now)
      ensures !outcome.NothingToDo? ==> Handled(c, outcome, reply, store.Contents(), id)
      ensures Undisturbed(c) && reply.Some? ==>
                Traced(events, old(events) + [StartJob(id, c.now)], |old(jobs)|, id, c, reply.value)
      ensures Undisturbed(c) && reply.None? ==> NoCalls(events, |old(events)|) && stripe == old(stripe)
    {
      outcome, reply := LoadAndProceed(id, c);
      RunIsSafe(start, events);
    }

    method LoadAndProceed(id: string, c: Conditions) returns (outcome: Outcome, reply: Option<CallResult>)
      requires Valid()
      modifies this`stripe, this`jobs, this`results, this`events, store
      ensures Valid() && old(events) <= events
      ensures outcome.NothingToDo? <==> !Available(old(store.Contents()), id, c.now)
      ensures !outcome.NothingToDo? ==> Handled(c, outcome, reply, store.Contents(), id)
      ensures outcome.NothingToDo? ==> reply.None?
      ensures Undisturbed(c) && reply.Some? ==>
                Traced(events, old(events) + [StartJob(id, c.now)], |old(jobs)|, id, c, reply.value)
      ensures Undisturbed(c) && reply.None? ==> NoCalls(events, |old(events)|) && stripe == old(stripe)
    {
      var j := |jobs|;
      var record := Load(id, c.now);
      if record.None? {
        return NothingToDo, None;
      }
      outcome, reply := Proceed(j, id, c);
    }

    /** What follows a record that was handed out. */
    method Proceed(j: nat, id: string, c: Conditions) returns (outcome: Outcome, reply: Option<CallResult>)
      requires Valid() && j < |jobs| && jobs[j].id == id && jobs[j].stage == Loaded && HandedOut(store.Contents(), id, KeyOf(id))
      modifies this`stripe, this`jobs, this`results, this`events, store
      ensures Valid() && old(events) <= events && !outcome.NothingToDo?
      ensures Handled(c, outcome, reply, store.Contents(), id)
      ensures Undisturbed(c) && reply.Some? ==> Traced(events, old(events), j, id, c, reply.value)
      ensures Undisturbed(c) && reply.None? ==> NoCalls(events, |old(events)|) && stripe == old(stripe)
    {
      if c.preflight.Eligible? {
        outcome, reply := CrossAndCall(j, id, c);
      } else {
        reply := None;
        outcome := StopAtPreflight(id, c);
      }
    }

    method CrossAndCall(j: nat, id: string, c: Conditions) returns (outcome: Outcome, reply: Option<CallResult>)
      requires Valid() && j < |jobs| && jobs[j].id == id && jobs[j].stage == Loaded
      modifies this`stripe, this`jobs, this`results, this`events, store
      ensures Valid() && old(events) <= events && !outcome.NothingToDo?
      ensures HandedOut(old(store.Contents()), id, KeyOf(id)) && Undisturbed(c) && c.crash != BeforeBoundary && c.crash != AfterBoundary ==>
                reply.Some?
      ensures reply.Some? ==> Reported(c, reply.value, outcome)
      ensures Undisturbed(c) && reply.Some? ==> Finishes(c, outcome, reply.value, store.Contents(), id)
      ensures outcome.AnswerRecorded? ==> reply.Some? && Linked(store.Contents(), id, outcome.refundId)
      ensures Undisturbed(c) && reply.Some? ==> Traced(events, old(events), j, id, c, reply.value)
      ensures Undisturbed(c) && reply.None? ==> NoCalls(events, |old(events)|) && stripe == old(stripe)
    {
      Interfere(c.meanwhile.beforeBoundary, j);
      if c.crash == CrashPoint.BeforeBoundary {
        return Crashed(c.crash), None;
      }
      outcome, reply := CrossThenCall(j, id, c);
    }

    method CrossThenCall(j: nat, id: string, c: Conditions) returns (outcome: Outcome, reply: Option<CallResult>)
      requires Valid() && j < |jobs| && jobs[j].id == id && jobs[j].stage == Loaded
      modifies this`stripe, this`jobs, this`results, this`events, store
      ensures Valid() && old(events) <= events && !outcome.NothingToDo?
      ensures HandedOut(old(store.Contents()), id, KeyOf(id)) && c.crash != AfterBoundary ==> reply.Some?
      ensures reply.Some? ==> Reported(c, reply.value, outcome)
      ensures Undisturbed(c) && reply.Some? ==> Finishes(c, outcome, reply.value, store.Contents(), id)
      ensures outcome.AnswerRecorded? ==> reply.Some? && Linked(store.Contents(), id, outcome.refundId)
      ensures Undisturbed(c) && reply.Some? ==> Traced(events, old(events), j, id, c, reply.value)
      ensures Undisturbed(c) && reply.None? ==> NoCalls(events, |old(events)|) && stripe == old(stripe)
    {
      reply := None;
      var decision := Boundary(id, j, c.now);
      if !decision.Execute? {
        return Stopped(decision), None;
      }
      if c.crash == CrashPoint.AfterBoundary {
        return Crashed(c.crash), None;
      }
      outcome, reply := CallAfterBoundary(j, id, decision.attempt, old(events), c);
    }

    /** What follows a crossing after the events `before`. */
    method CallAfterBoundary(j: nat, id: string, attempt: nat, ghost before: seq<Event>, c: Conditions)
      returns (outcome: Outcome, reply: Option<CallResult>)
      requires Valid() && j < |jobs| && jobs[j].id == id && jobs[j].stage.Crossed? && Underway(store.Contents(), id, KeyOf(id), attempt)
      requires events == before + [CrossJob(j, c.now)]
      modifies this`stripe, this`jobs, this`results, this`events, store
      ensures Valid() && before <= events && reply.Some? && Reported(c, reply.value, outcome)
      ensures outcome.AnswerRecorded? ==> Linked(store.Contents(), id, outcome.refundId)
      ensures Undisturbed(c) ==> Traced(events, before, j, id, c, reply.value)
      ensures Undisturbed(c) ==> Finishes(c, outcome, reply.value, store.Contents(), id)
    {
      Interfere(c.meanwhile.beforeCall, j);
      var result;
      outcome, result := CallAndRecord(j, attempt, c);
      reply := Some(result);
      if Undisturbed(c) {
        TraceOf(events, before, old(events), j, id, attempt, c, result);
      }
    }

    /** A payment that cannot be refunded any more; the loaded record never has
        a possible effect and no error is ambiguous before the boundary, so the
        request is closed, or retried for an error worth retrying. */
    method StopAtPreflight(id: string, c: Conditions) returns (outcome: Outcome)
      requires Valid() && !c.preflight.Eligible? && HandedOut(store.Contents(), id, KeyOf(id))
      modifies this`events, store
      ensures Valid() && old(events) <= events && NoCalls(events, |old(events)|)
      ensures if WillRetry(c) then outcome == Retry
              else outcome == PreflightRecorded && id in store.rows && store.rows[id].status == FailedTerminal
    {
      if c.preflight.PaymentError? {
        var verdict := NormalizeStripeFailure(c.preflight.error, false);
        AbsenceIsClaimedExactlyForRefusals(c.preflight.error);
        if verdict == Retryable {
          return Retry;
        }
      }
      var threw := RecordPreflight(id, c.now);
      outcome := PreflightRecorded;
    }
  }
}
