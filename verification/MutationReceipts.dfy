/** The server side of mutation idempotency: any number of interleaved
    dispatches, each a receipt lookup, a mutation transaction and, for a refused
    mutation, an error-receipt transaction. */
module MutationReceipts {
  import opened Prelude

  datatype Response = Response(status: int, body: string)

  datatype Metadata = Metadata(actorId: string, operation: string, requestHash: string, nonce: string)

  datatype Receipt = Receipt(actorId: string, operation: string, requestHash: string, response: Response)

  /** The append-only receipts and the mutations committed so far. */
  datatype Store = Store(receipts: map<string, Receipt>, effects: seq<Metadata>)

  /** What one run of the mutation body would do inside its transaction. */
  datatype Performed = Returned(response: Response) | ApiError(status: int, body: string) | Aborted

  /** How a dispatch's transaction ends: it runs, or loses a uniqueness race,
      or the process dies. */
  datatype Outcome = Runs(performed: Performed) | Collides | Dies

  datatype Answer = Responded(response: Response) | Raised(status: int, body: string) | Broken

  predicate ReceiptMatches(x: Receipt, m: Metadata) {
    x.actorId == m.actorId && x.operation == m.operation && x.requestHash == m.requestHash
  }

  /** The stored answer for a nonce that already has a receipt. */
  function Replay(s: Store, m: Metadata): Answer
    requires m.nonce in s.receipts
  {
    if ReceiptMatches(s.receipts[m.nonce], m) then Responded(s.receipts[m.nonce].response)
    else Raised(409, "IDEMPOTENCY_CONFLICT")
  }

  /** What a caller gets for a nonce that already has a receipt: the response on
      record for the same actor, operation and request hash, a conflict for any
      other. */
  predicate AnswersFromRecord(s: Store, m: Metadata, a: Answer) {
    m.nonce in s.receipts ==>
      var x := s.receipts[m.nonce];
      if x.actorId == m.actorId && x.operation == m.operation && x.requestHash == m.requestHash
      then a == Responded(x.response)
      else a == Raised(409, "IDEMPOTENCY_CONFLICT")
  }

  predicate Storable(status: int) { 200 <= status < 500 }

  function WithReceipt(s: Store, m: Metadata, response: Response): Store {
    s.(receipts := s.receipts[m.nonce := Receipt(m.actorId, m.operation, m.requestHash, response)])
  }

  function AfterCollision(s: Store, m: Metadata): Answer {
    if m.nonce in s.receipts then Replay(s, m) else Raised(409, "WORKFLOW_CONFLICT")
  }

  /** A mutation that returns commits its effect, with a receipt when its status
      is below 500; the table's check refuses a receipt below 200. */
  function ExecuteMutation(s: Store, m: Metadata, o: Outcome): (Store, Answer) {
    match o
    case Dies => (s, Broken)
    case Collides => (s, AfterCollision(s, m))
    case Runs(performed) =>
      if m.nonce in s.receipts then (s, Replay(s, m))
      else
        match performed
        case Aborted => (s, Broken)
        case ApiError(status, body) => (s, Raised(status, body))
        case Returned(response) =>
          var committed := s.(effects := s.effects + [m]);
          if response.status >= 500 then (committed, Responded(response))
          else if response.status < 200 then (s, Broken)
          else (WithReceipt(committed, m, response), Responded(response))
  }

  function StoreMutationReceipt(s: Store, m: Metadata, response: Response, o: Outcome): (Store, Answer) {
    if !Storable(response.status) then (s, Raised(500, "INTERNAL_ERROR"))
    else
      match o
      case Dies => (s, Broken)
      case Collides => (s, AfterCollision(s, m))
      case Runs(_) =>
        if m.nonce in s.receipts then (s, Replay(s, m)) else (WithReceipt(s, m, response), Responded(response))
  }

  /** Errors worth a receipt: anything the client caused except a refusal of
      authority. */
  predicate Recorded(status: int) { status != 403 && status < 500 }

  // --------------------------------------------- interleaved dispatches

  datatype Stage = Looking | Executing | Storing(response: Response) | Done(answer: Answer)

  datatype Dispatch = Dispatch(metadata: Metadata, stage: Stage)

  datatype Server = Server(store: Store, dispatches: seq<Dispatch>)

  datatype Event = Arrive(metadata: Metadata) | Advance(dispatch: nat, outcome: Outcome)

  /** What a dispatch does once the mutation transaction has answered. */
  function AfterExecute(a: Answer): Stage {
    if a.Raised? && Recorded(a.status) then Storing(Response(a.status, a.body)) else Done(a)
  }

  function AdvanceDispatch(s: Store, d: Dispatch, o: Outcome): (Store, Dispatch) {
    match d.stage
    case Looking =>
      (s, d.(stage := if d.metadata.nonce in s.receipts then Done(Replay(s, d.metadata)) else Executing))
    case Executing =>
      var (s', a) := ExecuteMutation(s, d.metadata, o);
      (s', d.(stage := AfterExecute(a)))
    case Storing(response) =>
      var (s', a) := StoreMutationReceipt(s, d.metadata, response, o);
      (s', d.(stage := Done(a)))
    case Done(_) => (s, d)
  }

  function Handle(v: Server, e: Event): Server {
    match e
    case Arrive(m) => v.(dispatches := v.dispatches + [Dispatch(m, Looking)])
    case Advance(i, o) =>
      if i >= |v.dispatches| then v
      else
        var (s', d') := AdvanceDispatch(v.store, v.dispatches[i], o);
        Server(s', v.dispatches[i := d'])
  }

  const IDLE := Server(Store(map[], []), [])

  function RunEvents(v: Server, events: seq<Event>): Server {
    if events == [] then v else Handle(RunEvents(v, events[..|events| - 1]), events[|events| - 1])
  }

  function EffectsOf(effects: seq<Metadata>, nonce: string): nat {
    if effects == [] then 0
    else EffectsOf(effects[..|effects| - 1], nonce) + if effects[|effects| - 1].nonce == nonce then 1 else 0
  }

  lemma EffectsAppend(effects: seq<Metadata>, m: Metadata, nonce: string)
    ensures EffectsOf(effects + [m], nonce) == EffectsOf(effects, nonce) + if m.nonce == nonce then 1 else 0
  {
    assert (effects + [m])[..|effects|] == effects;
  }

  // ------------------------------------------------------------ finality

  /** Nothing removes or rewrites a receipt, and no effect commits under a nonce
      that has one. */
  lemma AdvanceIsFinal(s: Store, d: Dispatch, o: Outcome, nonce: string)
    requires nonce in s.receipts
    ensures var s' := AdvanceDispatch(s, d, o).0;
            && nonce in s'.receipts && s'.receipts[nonce] == s.receipts[nonce]
            && EffectsOf(s'.effects, nonce) == EffectsOf(s.effects, nonce)
  {
    EffectsAppend(s.effects, d.metadata, nonce);
  }

  /** The first stored response is final: whatever dispatches interleave later,
      the receipt stays and no effect commits under its nonce again. */
  lemma {:induction false} ReceiptIsFinal(v: Server, events: seq<Event>, nonce: string)
    requires nonce in v.store.receipts
    ensures var v' := RunEvents(v, events);
            && nonce in v'.store.receipts && v'.store.receipts[nonce] == v.store.receipts[nonce]
            && EffectsOf(v'.store.effects, nonce) == EffectsOf(v.store.effects, nonce)
  {
    if events != [] {
      ReceiptIsFinal(v, events[..|events| - 1], nonce);
      var before, e := RunEvents(v, events[..|events| - 1]), events[|events| - 1];
      if e.Advance? && e.dispatch < |before.dispatches| {
        AdvanceIsFinal(before.store, before.dispatches[e.dispatch], e.outcome, nonce);
      }
    }
  }

  /** A dispatch that gave a storable response gave the response on record. */
  predicate Truthful(s: Store, d: Dispatch) {
    d.stage.Done? && d.stage.answer.Responded? && d.stage.answer.response.status < 500 ==>
      && d.metadata.nonce in s.receipts
      && ReceiptMatches(s.receipts[d.metadata.nonce], d.metadata)
      && s.receipts[d.metadata.nonce].response == d.stage.answer.response
  }

  predicate ReceiptsStorable(s: Store) { forall n | n in s.receipts :: Storable(s.receipts[n].response.status) }

  predicate AllTruthful(v: Server) {
    ReceiptsStorable(v.store) && forall i | 0 <= i < |v.dispatches| :: Truthful(v.store, v.dispatches[i])
  }

  lemma {:induction false} EveryRunIsTruthful(events: seq<Event>)
    ensures AllTruthful(RunEvents(IDLE, events))
  {
    if events != [] {
      EveryRunIsTruthful(events[..|events| - 1]);
      var v, e := RunEvents(IDLE, events[..|events| - 1]), events[|events| - 1];
      if e.Advance? && e.dispatch < |v.dispatches| {
        var (s', d') := AdvanceDispatch(v.store, v.dispatches[e.dispatch], e.outcome);
        var dispatches := v.dispatches[e.dispatch := d'];
        forall i | 0 <= i < |dispatches|
          ensures Truthful(s', dispatches[i])
        {
          if i != e.dispatch {
            assert Truthful(v.store, v.dispatches[i]);
          }
        }
      }
    }
  }

  /** Over every run, two dispatches under one nonce never give different
      responses below 500. */
  lemma EveryAnswerAgrees(events: seq<Event>, i: nat, j: nat)
    requires var v := RunEvents(IDLE, events);
             && i < |v.dispatches| && j < |v.dispatches|
             && v.dispatches[i].metadata.nonce == v.dispatches[j].metadata.nonce
             && v.dispatches[i].stage.Done? && v.dispatches[j].stage.Done?
             && v.dispatches[i].stage.answer.Responded? && v.dispatches[j].stage.answer.Responded?
             && v.dispatches[i].stage.answer.response.status < 500 && v.dispatches[j].stage.answer.response.status < 500
    ensures RunEvents(IDLE, events).dispatches[i].stage == RunEvents(IDLE, events).dispatches[j].stage
  {
    EveryRunIsTruthful(events);
    var v := RunEvents(IDLE, events);
    assert Truthful(v.store, v.dispatches[i]) && Truthful(v.store, v.dispatches[j]);
  }

  // ------------------------------------------------------ replays

  /** A dispatch that arrived when its nonce already had the receipt `x`. */
  predicate Replayed(d: Dispatch, x: Receipt) {
    || d.stage == Looking
    || d.stage == Done(if x.actorId == d.metadata.actorId && x.operation == d.metadata.operation
                          && x.requestHash == d.metadata.requestHash
                       then Responded(x.response) else Raised(409, "IDEMPOTENCY_CONFLICT"))
  }

  lemma AdvanceReplays(s: Store, d: Dispatch, o: Outcome)
    requires d.metadata.nonce in s.receipts && Replayed(d, s.receipts[d.metadata.nonce])
    ensures AdvanceDispatch(s, d, o).1.metadata == d.metadata
    ensures Replayed(AdvanceDispatch(s, d, o).1, s.receipts[d.metadata.nonce])
    ensures AdvanceDispatch(s, d, o).1.stage.Done?
  {
  }

  /** Over every interleaving, a dispatch that arrives after a receipt exists for
      its nonce is still waiting, or has answered with the response on record when
      it repeats the same mutation and with a conflict otherwise; its first step
      answers it. */
  lemma {:induction false} EveryRepeatGetsTheRecord(v: Server, m: Metadata, events: seq<Event>)
    requires m.nonce in v.store.receipts
    ensures var v' := RunEvents(Handle(v, Arrive(m)), events);
            && |v'.dispatches| > |v.dispatches| && v'.dispatches[|v.dispatches|].metadata == m
            && Replayed(v'.dispatches[|v.dispatches|], v.store.receipts[m.nonce])
            && ((exists k | 0 <= k < |events| :: events[k].Advance? && events[k].dispatch == |v.dispatches|) ==>
                  v'.dispatches[|v.dispatches|].stage.Done?)
  {
    if events != [] {
      var n := |events| - 1;
      EveryRepeatGetsTheRecord(v, m, events[..n]);
      ReceiptIsFinal(Handle(v, Arrive(m)), events[..n], m.nonce);
      var before, e := RunEvents(Handle(v, Arrive(m)), events[..n]), events[n];
      if e.Advance? && e.dispatch < |before.dispatches| && e.dispatch == |v.dispatches| {
        AdvanceReplays(before.store, before.dispatches[e.dispatch], e.outcome);
      }
      assert forall k | 0 <= k < n :: events[..n][k] == events[k];
    }
  }

  // ------------------------------------------------------ at most once

  /** The event commits a mutation of this nonce whose status is 500 or more. */
  predicate CommitsUnrecorded(v: Server, e: Event, nonce: string) {
    && e.Advance? && e.dispatch < |v.dispatches|
    && v.dispatches[e.dispatch].stage.Executing? && v.dispatches[e.dispatch].metadata.nonce == nonce
    && nonce !in v.store.receipts
    && e.outcome.Runs? && e.outcome.performed.Returned? && e.outcome.performed.response.status >= 500
  }

  function UnrecordedCommits(v: Server, events: seq<Event>, nonce: string): nat {
    if events == [] then 0
    else
      var before := events[..|events| - 1];
      UnrecordedCommits(v, before, nonce)
      + if CommitsUnrecorded(RunEvents(v, before), events[|events| - 1], nonce) then 1 else 0
  }

  /** `n` effects, `u` of them without a receipt. */
  predicate Balanced(s: Store, nonce: string, u: nat) {
    EffectsOf(s.effects, nonce) == u || (EffectsOf(s.effects, nonce) == u + 1 && nonce in s.receipts)
  }

  lemma ExecuteKeepsBalance(s: Store, m: Metadata, o: Outcome, nonce: string, u: nat)
    requires Balanced(s, nonce, u)
    ensures var unrecorded := m.nonce == nonce && nonce !in s.receipts && o.Runs? && o.performed.Returned?
                              && o.performed.response.status >= 500;
            Balanced(ExecuteMutation(s, m, o).0, nonce, if unrecorded then u + 1 else u)
  {
    EffectsAppend(s.effects, m, nonce);
  }

  lemma StoreKeepsBalance(s: Store, m: Metadata, response: Response, o: Outcome, nonce: string, u: nat)
    requires Balanced(s, nonce, u)
    ensures Balanced(StoreMutationReceipt(s, m, response, o).0, nonce, u)
  {
  }

  lemma EventKeepsBalance(v: Server, e: Event, nonce: string, u: nat)
    requires Balanced(v.store, nonce, u)
    ensures Balanced(Handle(v, e).store, nonce, if CommitsUnrecorded(v, e, nonce) then u + 1 else u)
  {
    if e.Advance? && e.dispatch < |v.dispatches| {
      var d := v.dispatches[e.dispatch];
      match d.stage
      case Executing => ExecuteKeepsBalance(v.store, d.metadata, e.outcome, nonce, u);
      case Storing(response) => StoreKeepsBalance(v.store, d.metadata, response, e.outcome, nonce, u);
      case _ =>
    }
  }

  /** Exact count of effects over every run: one for each commit that left no
      receipt, and at most one more, which left the receipt. */
  lemma {:induction false} EveryRunCountsEffects(events: seq<Event>, nonce: string)
    ensures var s := RunEvents(IDLE, events).store;
            var n := EffectsOf(s.effects, nonce);
            var u := UnrecordedCommits(IDLE, events, nonce);
            n == u || (n == u + 1 && nonce in s.receipts)
  {
    if events != [] {
      var before := events[..|events| - 1];
      EveryRunCountsEffects(before, nonce);
      EventKeepsBalance(RunEvents(IDLE, before), events[|events| - 1], nonce, UnrecordedCommits(IDLE, before, nonce));
    }
  }

  /** At most once: with no mutation that returns 500 or more, every interleaving
      of dispatches commits the effect of a nonce at most once. */
  lemma EveryRunIsAtMostOnce(events: seq<Event>, nonce: string)
    requires UnrecordedCommits(IDLE, events, nonce) == 0
    ensures EffectsOf(RunEvents(IDLE, events).store.effects, nonce) <= 1
  {
    EveryRunCountsEffects(events, nonce);
  }

  /** A new dispatch that finds no receipt and whose mutation succeeds. */
  function Redispatch(v: Server, m: Metadata): seq<Event> {
    [Arrive(m)] + [Advance(|v.dispatches|, Dies)] + [Advance(|v.dispatches|, Runs(Returned(Response(200, ""))))]
  }

  lemma RedispatchCommits(v: Server, m: Metadata)
    requires m.nonce !in v.store.receipts
    ensures EffectsOf(RunEvents(v, Redispatch(v, m)).store.effects, m.nonce) == EffectsOf(v.store.effects, m.nonce) + 1
  {
    var i := |v.dispatches|;
    var e1, e2, e3 := Arrive(m), Advance(i, Dies), Advance(i, Runs(Returned(Response(200, ""))));
    var v1 := Handle(v, e1);
    var v2 := Handle(v1, e2);
    RunOne(v, [], e1);
    RunOne(v, [e1], e2);
    RunOne(v, [e1] + [e2], e3);
    assert [] + [e1] == [e1];
    assert RunEvents(v, Redispatch(v, m)) == Handle(v2, e3);
    EffectsAppend(v.store.effects, m, m.nonce);
  }

  lemma RunOne(v: Server, events: seq<Event>, e: Event)
    ensures RunEvents(v, events + [e]) == Handle(RunEvents(v, events), e)
  {
    assert (events + [e])[..|events|] == events;
  }

  /** Exactly when a committed mutation can never commit again, whatever is
      dispatched later: when its nonce has a receipt. */
  lemma FinalIffReceipted(v: Server, m: Metadata)
    ensures (forall events :: EffectsOf(RunEvents(v, events).store.effects, m.nonce) == EffectsOf(v.store.effects, m.nonce))
            <==> m.nonce in v.store.receipts
  {
    if m.nonce in v.store.receipts {
      forall events
        ensures EffectsOf(RunEvents(v, events).store.effects, m.nonce) == EffectsOf(v.store.effects, m.nonce)
      {
        ReceiptIsFinal(v, events, m.nonce);
      }
    } else {
      RedispatchCommits(v, m);
    }
  }

  /** Which committed mutations are receipted: exactly those whose status is
      below 500. */
  lemma CommitIsReceiptedIffBelow500(s: Store, m: Metadata, response: Response)
    requires m.nonce !in s.receipts && response.status >= 200
    ensures var s' := ExecuteMutation(s, m, Runs(Returned(response))).0;
            s'.effects == s.effects + [m] && (m.nonce in s'.receipts <==> response.status < 500)
  {
  }

  // ------------------------------------------------------ the repository

  /** The two receipt transactions as the repository runs them: a copy of the
      tables that replaces them only when the transaction commits. */
  class MutationRepository {
    var receipts: map<string, Receipt>
    var effects: seq<Metadata>

    function Contents(): Store
      reads this
    {
      Store(receipts, effects)
    }

    constructor ()
      ensures Contents() == IDLE.store
    {
      receipts, effects := map[], [];
    }

    method FindMutationReceipt(nonce: string) returns (x: Option<Receipt>)
      ensures x.Some? <==> nonce in receipts
      ensures x.Some? ==> x.value == receipts[nonce]
    {
      x := if nonce in receipts then Some(receipts[nonce]) else None;
    }

    /** The P2002 path shared by both transactions. */
    method ReadAfterCollision(m: Metadata) returns (a: Answer)
      ensures a == AfterCollision(Contents(), m)
    {
      var x := FindMutationReceipt(m.nonce);
      if x.None? {
        return Raised(409, "WORKFLOW_CONFLICT");
      }
      a := if ReceiptMatches(x.value, m) then Responded(x.value.response) else Raised(409, "IDEMPOTENCY_CONFLICT");
    }

    method Execute(m: Metadata, o: Outcome) returns (a: Answer)
      modifies this
      ensures (Contents(), a) == ExecuteMutation(old(Contents()), m, o)
      ensures !o.Dies? ==> AnswersFromRecord(old(Contents()), m, a)
      ensures m.nonce in old(receipts) ==> Contents() == old(Contents())
      ensures o.Runs? && o.performed.Returned? && m.nonce !in old(receipts) && o.performed.response.status >= 200 ==>
                && a == Responded(o.performed.response) && effects == old(effects) + [m]
                && (o.performed.response.status < 500 ==>
                      m.nonce in receipts && receipts[m.nonce] == Receipt(m.actorId, m.operation, m.requestHash, o.performed.response))
      ensures !(o.Runs? && o.performed.Returned?) ==> Contents() == old(Contents())
    {
      if o.Dies? {
        return Broken;
      }
      if o.Collides? {
        a := ReadAfterCollision(m);
        return;
      }
      var existing := FindMutationReceipt(m.nonce);
      if existing.Some? {
        return if ReceiptMatches(existing.value, m) then Responded(existing.value.response) else Raised(409, "IDEMPOTENCY_CONFLICT");
      }
      if o.performed.Aborted? {
        return Broken;
      }
      if o.performed.ApiError? {
        return Raised(o.performed.status, o.performed.body);
      }
      var response := o.performed.response;
      var receipts', effects' := receipts, effects + [m];
      if response.status < 500 {
        if response.status < 200 {
          return Broken;
        }
        receipts' := receipts'[m.nonce := Receipt(m.actorId, m.operation, m.requestHash, response)];
      }
      receipts, effects := receipts', effects';
      a := Responded(response);
    }

    method StoreReceipt(m: Metadata, response: Response, o: Outcome) returns (a: Answer)
      modifies this
      ensures (Contents(), a) == StoreMutationReceipt(old(Contents()), m, response, o)
      ensures 200 <= response.status < 500 && !o.Dies? ==> AnswersFromRecord(old(Contents()), m, a)
      ensures effects == old(effects) && (m.nonce in old(receipts) ==> receipts == old(receipts))
      ensures 200 <= response.status < 500 && o.Runs? && m.nonce !in old(receipts) ==>
                && a == Responded(response)
                && receipts == old(receipts)[m.nonce := Receipt(m.actorId, m.operation, m.requestHash, response)]
    {
      if !Storable(response.status) {
        return Raised(500, "INTERNAL_ERROR");
      }
      if o.Dies? {
        return Broken;
      }
      if o.Collides? {
        a := ReadAfterCollision(m);
        return;
      }
      var existing := FindMutationReceipt(m.nonce);
      if existing.Some? {
        return if ReceiptMatches(existing.value, m) then Responded(existing.value.response) else Raised(409, "IDEMPOTENCY_CONFLICT");
      }
      receipts := receipts[m.nonce := Receipt(m.actorId, m.operation, m.requestHash, response)];
      a := Responded(response);
    }

    /** One whole dispatch of a mutation with nobody interleaving: a repeat after
        a recorded answer changes nothing and gives that answer again. */
    method DispatchMutation(m: Metadata, execute: Outcome, store: Outcome) returns (a: Answer)
      modifies this
      ensures m.nonce in old(receipts) ==> Contents() == old(Contents())
      ensures AnswersFromRecord(old(Contents()), m, a)
      ensures m.nonce !in old(receipts) && execute.Runs? && execute.performed.Returned?
              && 200 <= execute.performed.response.status < 500 ==>
                && a == Responded(execute.performed.response) && effects == old(effects) + [m]
                && m.nonce in receipts && receipts[m.nonce].response == a.response
      ensures m.nonce !in old(receipts) && execute.Runs? && execute.performed.ApiError? && store.Runs? ==>
                effects == old(effects) &&
                if execute.performed.status != 403 && 200 <= execute.performed.status < 500
                then && a == Responded(Response(execute.performed.status, execute.performed.body))
                     && m.nonce in receipts && receipts[m.nonce].response == a.response
                else a.Raised? && receipts == old(receipts)
      ensures old(receipts).Keys <= receipts.Keys
      ensures forall n | n in old(receipts) :: receipts[n] == old(receipts)[n]
      ensures EffectsOf(effects, m.nonce) <= EffectsOf(old(effects), m.nonce) + 1
      ensures a.Responded? && a.response.status < 500 ==>
                m.nonce in receipts && receipts[m.nonce].response == a.response
      ensures a.Responded? && a.response.status < 500 && m.nonce !in old(receipts) ==>
                ReceiptMatches(receipts[m.nonce], m)
    {
      var x := FindMutationReceipt(m.nonce);
      if x.Some? {
        return if ReceiptMatches(x.value, m) then Responded(x.value.response) else Raised(409, "IDEMPOTENCY_CONFLICT");
      }
      EffectsAppend(effects, m, m.nonce);
      a := Execute(m, execute);
      if a.Raised? && Recorded(a.status) {
        a := StoreReceipt(m, Response(a.status, a.body), store);
      }
    }
  }
}
