/** At most one refund a request. Worker jobs crash and retry at any point, run
    side by side and call Stripe any number of times; Stripe deduplicates by
    idempotency key and refuses a key reused with other parameters. */
module StripeEffects {
  import opened Prelude
  import opened Domain
  import opened Observation
  import opened Execution
  import opened Attestation
  import opened RefundRow
  import opened RowInvariant
  import opened Tenant
  import opened TenantTheorems

  // ------------------------------------------------------ idempotency keys

  predicate HexDigit(c: char) { '0' <= c <= '9' || 'a' <= c <= 'f' || 'A' <= c <= 'F' }

  /** RFC 9562 text form, versions 1 to 8, variant 10, in either case. */
  predicate IsUuid(s: string) {
    && |s| == 36
    && s[8] == '-' && s[13] == '-' && s[18] == '-' && s[23] == '-'
    && '1' <= s[14] <= '8'
    && s[19] in {'8', '9', 'a', 'b', 'A', 'B'}
    && forall i | 0 <= i < 36 && i !in {8, 13, 18, 23} :: HexDigit(s[i])
  }

  function LowerChar(c: char): char { if 'A' <= c <= 'Z' then (c as int + 32) as char else c }

  function Lower(s: string): string { seq(|s|, i requires 0 <= i < |s| => LowerChar(s[i])) }

  const KEY_PREFIX: string := "refunddesk:refund-request:"
  const KEY_SUFFIX: string := ":v1"

  /** None when the identifier is refused. */
  function RefundIdempotencyKey(requestId: string): Option<string> {
    if IsUuid(requestId) then Some(KEY_PREFIX + Lower(requestId) + KEY_SUFFIX) else None
  }

  /** Two requests share a key exactly when they are the same identifier. */
  lemma KeysIdentifyRequests(a: string, b: string)
    requires IsUuid(a) && IsUuid(b)
    ensures RefundIdempotencyKey(a) == RefundIdempotencyKey(b) <==> Lower(a) == Lower(b)
  {
    var ka, kb := KEY_PREFIX + Lower(a) + KEY_SUFFIX, KEY_PREFIX + Lower(b) + KEY_SUFFIX;
    var n := |KEY_PREFIX|;
    assert ka[n..n + 36] == Lower(a) && kb[n..n + 36] == Lower(b);
  }

  // ---------------------------------------------------------------- Stripe

  /** The metadata proof depends on the version of the key that signed it. */
  datatype StripeRefund = StripeRefund(id: string, key: string, params: Params, proofVersion: string)

  datatype Stripe = Stripe(byKey: map<string, StripeRefund>, refunds: seq<StripeRefund>)

  /** What Stripe makes of a first call under a key: the refund it creates, or a
      refusal or an error that creates nothing. */
  datatype FirstUse = Creates(refundId: string) | CreatesNothing

  datatype CallResult = Returns(refund: StripeRefund) | ParameterConflict | NoRefund

  function CreateRefund(s: Stripe, key: string, params: Params, version: string, first: FirstUse): (Stripe, CallResult) {
    if key in s.byKey then
      (s, if s.byKey[key].params == params && s.byKey[key].proofVersion == version then Returns(s.byKey[key])
          else ParameterConflict)
    else
      match first
      case CreatesNothing => (s, NoRefund)
      case Creates(id) =>
        var refund := StripeRefund(id, key, params, version);
        (Stripe(s.byKey[key := refund], s.refunds + [refund]), Returns(refund))
  }

  // ------------------------------------------------------------- the world

  datatype Stage = Loaded | Crossed(attempt: nat)

  /** A worker job with the record it loaded. Crashing is never moving again. */
  datatype Job = Job(id: string, params: Params, stage: Stage)

  /** What one call of a job for request `id`, signed under `version`, got. */
  datatype Reply = Reply(id: string, version: string, result: CallResult)

  datatype World = World(db: Db, stripe: Stripe, jobs: seq<Job>, results: seq<Reply>)

  datatype Event =
    | Act(action: Action)
    | StartJob(id: string, now: Time)
    | CrossJob(job: nat, now: Time)
    | CallStripe(job: nat, version: string, first: FirstUse)

  function Account(db: Db, s: Snapshot): string {
    if s.installationId in db.installations then db.installations[s.installationId].stripeAccountId else ""
  }

  function KeyOf(id: string): string { KEY_PREFIX + Lower(id) + KEY_SUFFIX }

  function Next(w: World, e: Event): World {
    match e
    case Act(a) => w.(db := Step(w.db, a))
    case StartJob(id, now) =>
      if RefundIdempotencyKey(id).None? then w
      else
        var db' := LoadRefundExecution(w.db, id, KeyOf(id), now);
        if HandedOut(db', id, KeyOf(id))
        then w.(db := db', jobs := w.jobs + [Job(id, ParamsOf(db'.rows[id].snap, Account(db', db'.rows[id].snap)), Loaded)])
        else w.(db := db')
    case CrossJob(j, now) =>
      if j >= |w.jobs| || !w.jobs[j].stage.Loaded? then w
      else AfterBoundary(w, j, PersistEffectBoundary(w.db, w.jobs[j].id, KeyOf(w.jobs[j].id), now))
    case CallStripe(j, version, first) =>
      if j >= |w.jobs| || !w.jobs[j].stage.Crossed? then w
      else AfterCall(w, j, version, CreateRefund(w.stripe, KeyOf(w.jobs[j].id), w.jobs[j].params, version, first))
  }

  function AfterBoundary(w: World, j: nat, result: (Db, BoundaryDecision)): World
    requires j < |w.jobs|
  {
    if result.1.Execute?
    then w.(db := result.0, jobs := w.jobs[j := w.jobs[j].(stage := Crossed(result.1.attempt))])
    else w.(db := result.0)
  }

  function AfterCall(w: World, j: nat, version: string, result: (Stripe, CallResult)): World
    requires j < |w.jobs|
  {
    w.(stripe := result.0, results := w.results + [Reply(w.jobs[j].id, version, result.1)])
  }

  /** The store generates lower-case identifiers, the boundary is asked for with
      the request's own key, and an installation's account never changes. */
  predicate Honest(w: World, e: Event) {
    match e
    case Act(CreateRequest(snap)) => IsUuid(snap.requestId) && Lower(snap.requestId) == snap.requestId
    case Act(Boundary(id, key, _)) => RefundIdempotencyKey(id) == Some(key)
    case Act(Reauthorize(inst, i)) =>
      inst in w.db.installations ==> i.stripeAccountId == w.db.installations[inst].stripeAccountId
    case _ => true
  }

  function RunWorld(w: World, events: seq<Event>): World {
    if events == [] then w else Next(RunWorld(w, events[..|events| - 1]), events[|events| - 1])
  }

  predicate HonestRun(w: World, events: seq<Event>) {
    events == []
    || (HonestRun(w, events[..|events| - 1]) && Honest(RunWorld(w, events[..|events| - 1]), events[|events| - 1]))
  }

  function Fresh(db: Db): World { World(db.(rows := map[]), Stripe(map[], []), [], []) }

  // ---------------------------------------- what is sent never changes

  /** The key and parameters durably recorded for a request. */
  function CallOf(r: Row): Option<(string, Params)> {
    if r.execution.None? then None else Some((r.execution.value.key, r.execution.value.params))
  }

  lemma ObservedAsKeepsCall(r: Row, r': Row, input: Identification, now: Time)
    requires ObservedAs(r, r', input, now)
    ensures CallOf(r') == CallOf(r)
  {
  }

  lemma SightingKeepsCall(r: Row, account: string, o: Sighting, now: Time)
    requires Observe(r, account, o, now).Some?
    ensures CallOf(Observe(r, account, o, now).value.row) == CallOf(r)
  {
    ObservationShape(r, account, o, now);
    ObservedAsKeepsCall(r, Observe(r, account, o, now).value.row, IdentificationOf(o), now);
  }

  lemma ResolutionKeepsCall(r: Row, alert: bool, first: string, ws: Time, we: Time, now: Time)
    requires ResolveByScan(r, alert, first, ws, we, now).Some?
    ensures CallOf(ResolveByScan(r, alert, first, ws, we, now).value) == CallOf(r)
  {
    var r' := ResolveByScan(r, alert, first, ws, we, now).value;
    ResolutionShape(r, alert, first, ws, we, now);
    if first in r.candidates && ObservedAs(r, r', ScanIdentification(r, first, alert), now) {
      ObservedAsKeepsCall(r, r', ScanIdentification(r, first, alert), now);
    }
  }

  lemma OtherTxKeepsCall(r: Row, tx: RowTx)
    requires Try(r, tx).Some? && !tx.TxCross? && !tx.TxObserve? && !tx.TxResolve?
    ensures CallOf(Try(r, tx).value) == CallOf(r)
  {
  }

  lemma QuietTxKeepsCall(r: Row, tx: RowTx)
    requires !tx.TxCross?
    ensures CallOf(Apply(r, tx)) == CallOf(r)
  {
    if Try(r, tx).Some? {
      match tx
      case TxObserve(account, o, now) => SightingKeepsCall(r, account, o, now);
      case TxResolve(alert, first, ws, we, now) => ResolutionKeepsCall(r, alert, first, ws, we, now);
      case _ => OtherTxKeepsCall(r, tx);
    }
  }

  lemma {:induction false} QuietRunKeepsCall(r: Row, txs: seq<RowTx>)
    requires Quiet(txs)
    ensures CallOf(Run(r, txs)) == CallOf(r) && Run(r, txs).snap == r.snap
  {
    if txs != [] {
      QuietRunKeepsCall(r, txs[..|txs| - 1]);
      var before := Run(r, txs[..|txs| - 1]);
      QuietTxKeepsCall(before, txs[|txs| - 1]);
      assert Apply(before, txs[|txs| - 1]).snap == before.snap;
    }
  }

  /** A crossing records the request's own key and parameters, or keeps them. */
  lemma CrossingRecordsCall(r: Row, account: string, key: string)
    requires CrossBoundary(r, account, key).Some?
    ensures var r' := CrossBoundary(r, account, key).value;
            CallOf(r') == Some((key, ParamsOf(r.snap, account))) && (CallOf(r).Some? ==> CallOf(r) == CallOf(r')) && r'.snap == r.snap
  {
  }

  // -------------------------------------------------- accounts never change

  predicate AccountsKept(db: Db, db': Db) {
    forall inst | inst in db.installations ::
      inst in db'.installations && db'.installations[inst].stripeAccountId == db.installations[inst].stripeAccountId
  }

  lemma StepKeepsAccounts(db: Db, a: Action)
    requires a.Reauthorize? && a.installationId in db.installations ==>
               a.installation.stripeAccountId == db.installations[a.installationId].stripeAccountId
    ensures AccountsKept(db, Step(db, a))
  {
  }

  // ------------------------------------------------------------ invariant

  /** A request is stored under its own canonical identifier, and what was
      recorded to be sent is its own key and parameters. */
  predicate RowTied(db: Db, id: string)
    requires id in db.rows
  {
    var r := db.rows[id];
    && r.snap.requestId == id && IsUuid(id) && Lower(id) == id && r.snap.installationId in db.installations
    && (CallOf(r).Some? ==> CallOf(r) == Some((KeyOf(id), ParamsOf(r.snap, Account(db, r.snap)))))
  }

  predicate RowsTied(db: Db) { forall id | id in db.rows :: RowTied(db, id) }

  /** Requests stay, with their snapshot and, once recorded, what they send. */
  predicate CallsKept(db: Db, db': Db) {
    && AccountsKept(db, db')
    && forall id | id in db.rows ::
         && id in db'.rows && db'.rows[id].snap == db.rows[id].snap
         && (CallOf(db.rows[id]).Some? ==> CallOf(db'.rows[id]) == CallOf(db.rows[id]))
  }

  predicate JobTied(db: Db, j: Job) {
    && j.id in db.rows && j.params == ParamsOf(db.rows[j.id].snap, Account(db, db.rows[j.id].snap))
    && (j.stage.Crossed? ==> CallOf(db.rows[j.id]) == Some((KeyOf(j.id), j.params)))
  }

  /** A refund in Stripe was written ahead: its request durably recorded the key
      and the parameters it was created with. */
  predicate WrittenAhead(db: Db, x: StripeRefund) {
    x.params.requestId in db.rows && CallOf(db.rows[x.params.requestId]) == Some((x.key, x.params))
  }

  predicate LedgerTied(s: Stripe) {
    && (forall k | k in s.byKey :: s.byKey[k].key == k && s.byKey[k] in s.refunds)
    && (forall i | 0 <= i < |s.refunds| :: s.refunds[i].key in s.byKey && s.byKey[s.refunds[i].key] == s.refunds[i])
    && (forall i, j | 0 <= i < j < |s.refunds| :: s.refunds[i].key != s.refunds[j].key)
  }

  /** Every answer so far named the one refund under the job's key; a conflict
      came from a proof signed under another version than that refund's. */
  predicate ResultTied(s: Stripe, x: Reply) {
    && (!x.result.NoRefund? ==> KeyOf(x.id) in s.byKey)
    && (x.result.Returns? ==> s.byKey[KeyOf(x.id)] == x.result.refund && x.result.refund.proofVersion == x.version)
    && (x.result.ParameterConflict? ==> s.byKey[KeyOf(x.id)].proofVersion != x.version)
  }

  predicate Tied(w: World) {
    && RowsTied(w.db)
    && (forall j | 0 <= j < |w.jobs| :: JobTied(w.db, w.jobs[j]))
    && LedgerTied(w.stripe)
    && (forall i | 0 <= i < |w.stripe.refunds| :: WrittenAhead(w.db, w.stripe.refunds[i]))
    && (forall i | 0 <= i < |w.results| :: ResultTied(w.stripe, w.results[i]))
  }

  lemma EvolutionKeepsCalls(db: Db, db': Db)
    requires RowsTied(db) && Evolves(db, db') && AccountsKept(db, db')
    ensures RowsTied(db') && CallsKept(db, db')
  {
    forall id | id in db.rows
      ensures RowTied(db', id) && db'.rows[id].snap == db.rows[id].snap && CallOf(db'.rows[id]) == CallOf(db.rows[id])
    {
      assert RowTied(db, id);
      var txs :| Quiet(txs) && db'.rows[id] == Run(db.rows[id], txs);
      QuietRunKeepsCall(db.rows[id], txs);
    }
  }

  lemma OneRowKeepsCalls(db: Db, db': Db, id: string, r': Row)
    requires RowsTied(db) && id in db.rows && db' == SetRow(db, id, r') && r'.snap == db.rows[id].snap
    requires CallOf(r') == CallOf(db.rows[id])
             || (CallOf(db.rows[id]).None? && CallOf(r') == Some((KeyOf(id), ParamsOf(r'.snap, Account(db, r'.snap)))))
    ensures RowsTied(db') && CallsKept(db, db')
  {
    forall i | i in db'.rows
      ensures RowTied(db', i)
    {
      assert RowTied(db, i);
    }
  }

  lemma CrossingKeepsCalls(db: Db, db': Db, id: string)
    requires RowsTied(db) && id in db.rows && id in db'.rows && Crosses(db, id, KeyOf(id), db'.rows[id])
    requires db' == SetRow(db, id, db'.rows[id])
    ensures RowsTied(db') && CallsKept(db, db')
    ensures CallOf(db'.rows[id]) == Some((KeyOf(id), ParamsOf(db'.rows[id].snap, Account(db', db'.rows[id].snap))))
  {
    assert RowTied(db, id);
    CrossingRecordsCall(db.rows[id], db.installations[db.rows[id].snap.installationId].stripeAccountId, KeyOf(id));
    OneRowKeepsCalls(db, db', id, db'.rows[id]);
  }

  lemma CreationKeepsCalls(db: Db, snap: Snapshot)
    requires RowsTied(db) && CreateRefundRequest(db, snap).Some? && IsUuid(snap.requestId) && Lower(snap.requestId) == snap.requestId
    ensures RowsTied(CreateRefundRequest(db, snap).value) && CallsKept(db, CreateRefundRequest(db, snap).value)
  {
    var db' := CreateRefundRequest(db, snap).value;
    forall i | i in db'.rows
      ensures RowTied(db', i)
    {
      assert i in db.rows ==> RowTied(db, i);
    }
  }

  lemma ActKeepsCalls(w: World, a: Action)
    requires RowsTied(w.db) && Honest(w, Act(a))
    ensures RowsTied(Step(w.db, a)) && CallsKept(w.db, Step(w.db, a))
  {
    var db' := Step(w.db, a);
    StepShape(w.db, a);
    StepKeepsAccounts(w.db, a);
    if Evolves(w.db, db') {
      EvolutionKeepsCalls(w.db, db');
    } else if a.CreateRequest? && CreateRefundRequest(w.db, a.snap) == Some(db') {
      CreationKeepsCalls(w.db, a.snap);
    } else if CrossesBy(w.db, a, db') {
      CrossingKeepsCalls(w.db, db', a.id);
    } else {
      OneRowKeepsCalls(w.db, db', a.id, db'.rows[a.id]);
    }
  }

  /** Jobs and refunds stay tied while rows keep what they send. */
  lemma CallsKeptKeepsTied(w: World, db': Db)
    requires Tied(w) && RowsTied(db') && CallsKept(w.db, db')
    ensures Tied(w.(db := db'))
  {
    forall j | 0 <= j < |w.jobs|
      ensures JobTied(db', w.jobs[j])
    {
      assert JobTied(w.db, w.jobs[j]);
      assert RowTied(w.db, w.jobs[j].id);
    }
    forall i | 0 <= i < |w.stripe.refunds|
      ensures WrittenAhead(db', w.stripe.refunds[i])
    {
      assert WrittenAhead(w.db, w.stripe.refunds[i]);
    }
  }

  lemma LoadedJobIsTied(w: World, db': Db, id: string)
    requires Tied(w.(db := db')) && id in db'.rows
    ensures Tied(w.(db := db', jobs := w.jobs + [Job(id, ParamsOf(db'.rows[id].snap, Account(db', db'.rows[id].snap)), Loaded)]))
  {
  }

  lemma LoadKeepsRowsTied(w: World, id: string, now: Time)
    requires Tied(w)
    ensures Tied(w.(db := LoadRefundExecution(w.db, id, KeyOf(id), now)))
  {
    ActKeepsCalls(w, Load(id, KeyOf(id), now));
    CallsKeptKeepsTied(w, Step(w.db, Load(id, KeyOf(id), now)));
  }

  lemma LoadKeepsTied(w: World, id: string, now: Time)
    requires Tied(w)
    ensures Tied(Next(w, StartJob(id, now)))
  {
    if RefundIdempotencyKey(id).Some? {
      LoadKeepsRowsTied(w, id, now);
      var db' := LoadRefundExecution(w.db, id, KeyOf(id), now);
      if id in db'.rows {
        LoadedJobIsTied(w, db', id);
      }
    }
  }

  lemma JobMoves(w: World, j: nat, job: Job)
    requires Tied(w) && j < |w.jobs| && JobTied(w.db, job)
    ensures Tied(w.(jobs := w.jobs[j := job]))
  {
  }

  lemma CrossingTiesJob(w: World, j: nat, db': Db, attempt: nat)
    requires Tied(w) && j < |w.jobs| && w.jobs[j].id in db'.rows
    requires Crosses(w.db, w.jobs[j].id, KeyOf(w.jobs[j].id), db'.rows[w.jobs[j].id])
    requires db' == SetRow(w.db, w.jobs[j].id, db'.rows[w.jobs[j].id])
    ensures Tied(w.(db := db', jobs := w.jobs[j := w.jobs[j].(stage := Crossed(attempt))]))
  {
    CrossingKeepsCalls(w.db, db', w.jobs[j].id);
    CallsKeptKeepsTied(w, db');
    assert JobTied(db', w.(db := db').jobs[j]);
    JobMoves(w.(db := db'), j, w.jobs[j].(stage := Crossed(attempt)));
  }

  lemma BoundaryKeepsTied(w: World, id: string, now: Time)
    requires Tied(w) && IsUuid(id)
    ensures Tied(w.(db := PersistEffectBoundary(w.db, id, KeyOf(id), now).0))
  {
    ActKeepsCalls(w, Boundary(id, KeyOf(id), now));
    CallsKeptKeepsTied(w, Step(w.db, Boundary(id, KeyOf(id), now)));
  }

  lemma AfterBoundaryIsTied(w: World, j: nat, result: (Db, BoundaryDecision))
    requires Tied(w) && j < |w.jobs|
    requires result.1.Execute? ==>
               && w.jobs[j].id in result.0.rows
               && Crosses(w.db, w.jobs[j].id, KeyOf(w.jobs[j].id), result.0.rows[w.jobs[j].id])
               && result.0 == SetRow(w.db, w.jobs[j].id, result.0.rows[w.jobs[j].id])
    requires !result.1.Execute? ==> Tied(w.(db := result.0))
    ensures Tied(AfterBoundary(w, j, result))
  {
    if result.1.Execute? {
      CrossingTiesJob(w, j, result.0, result.1.attempt);
    }
  }

  lemma CrossKeepsTied(w: World, j: nat, now: Time)
    requires Tied(w) && j < |w.jobs| && w.jobs[j].stage.Loaded?
    ensures Tied(AfterBoundary(w, j, PersistEffectBoundary(w.db, w.jobs[j].id, KeyOf(w.jobs[j].id), now)))
  {
    var id := w.jobs[j].id;
    assert JobTied(w.db, w.jobs[j]) && RowTied(w.db, id);
    var result := PersistEffectBoundary(w.db, id, KeyOf(id), now);
    if result.1.Execute? {
      ExecuteMeansCrossed(w.db, id, KeyOf(id), now);
    } else {
      BoundaryKeepsTied(w, id, now);
    }
    AfterBoundaryIsTied(w, j, result);
  }

  /** A refund already under a job's key has the job's parameters. */
  lemma UsedKeyHasSameParams(w: World, j: nat)
    requires Tied(w) && j < |w.jobs| && w.jobs[j].stage.Crossed? && KeyOf(w.jobs[j].id) in w.stripe.byKey
    ensures w.stripe.byKey[KeyOf(w.jobs[j].id)].params == w.jobs[j].params
  {
    var job := w.jobs[j];
    var x := w.stripe.byKey[KeyOf(job.id)];
    assert JobTied(w.db, job);
    assert RowTied(w.db, job.id);
    assert WrittenAhead(w.db, x);
    assert RowTied(w.db, x.params.requestId);
    KeysIdentifyRequests(job.id, x.params.requestId);
  }

  lemma FirstUseIsTied(s: Stripe, x: StripeRefund)
    requires LedgerTied(s) && x.key !in s.byKey
    ensures LedgerTied(Stripe(s.byKey[x.key := x], s.refunds + [x]))
  {
    var refunds := s.refunds + [x];
    assert refunds[|s.refunds|] == x;
    assert forall i | 0 <= i < |s.refunds| :: refunds[i] == s.refunds[i] && s.refunds[i].key in s.byKey;
  }

  /** A call under a tied key conflicts exactly when its proof is signed under
      another version than the proof of the refund already there. */
  lemma CallIsTied(w: World, j: nat, version: string, first: FirstUse)
    requires Tied(w) && j < |w.jobs| && w.jobs[j].stage.Crossed?
    ensures var key := KeyOf(w.jobs[j].id);
            var (s', result) := CreateRefund(w.stripe, key, w.jobs[j].params, version, first);
            && LedgerTied(s') && ResultTied(s', Reply(w.jobs[j].id, version, result))
            && (forall k | k in w.stripe.byKey :: k in s'.byKey && s'.byKey[k] == w.stripe.byKey[k])
            && (forall i | 0 <= i < |s'.refunds| :: WrittenAhead(w.db, s'.refunds[i]))
            && (result.ParameterConflict? <==> key in w.stripe.byKey && w.stripe.byKey[key].proofVersion != version)
  {
    var job := w.jobs[j];
    assert JobTied(w.db, job);
    if KeyOf(job.id) in w.stripe.byKey {
      UsedKeyHasSameParams(w, j);
    } else if first.Creates? {
      assert RowTied(w.db, job.id);
      FirstUseIsTied(w.stripe, StripeRefund(first.refundId, KeyOf(job.id), job.params, version));
    }
  }

  lemma AnsweredWorldIsTied(w: World, s': Stripe, x: Reply)
    requires Tied(w) && LedgerTied(s') && ResultTied(s', x)
    requires forall k | k in w.stripe.byKey :: k in s'.byKey && s'.byKey[k] == w.stripe.byKey[k]
    requires forall i | 0 <= i < |s'.refunds| :: WrittenAhead(w.db, s'.refunds[i])
    ensures Tied(w.(stripe := s', results := w.results + [x]))
  {
    var results := w.results + [x];
    forall i | 0 <= i < |results|
      ensures ResultTied(s', results[i])
    {
      assert i < |w.results| ==> ResultTied(w.stripe, w.results[i]);
    }
  }

  lemma CallKeepsTied(w: World, j: nat, version: string, first: FirstUse)
    requires Tied(w) && j < |w.jobs| && w.jobs[j].stage.Crossed?
    ensures Tied(AfterCall(w, j, version, CreateRefund(w.stripe, KeyOf(w.jobs[j].id), w.jobs[j].params, version, first)))
  {
    CallIsTied(w, j, version, first);
    var result := CreateRefund(w.stripe, KeyOf(w.jobs[j].id), w.jobs[j].params, version, first);
    AnsweredWorldIsTied(w, result.0, Reply(w.jobs[j].id, version, result.1));
  }

  lemma EventKeepsTied(w: World, e: Event)
    requires Tied(w) && Honest(w, e)
    ensures Tied(Next(w, e))
  {
    match e
    case Act(a) =>
      ActKeepsCalls(w, a);
      CallsKeptKeepsTied(w, Step(w.db, a));
    case StartJob(id, now) => LoadKeepsTied(w, id, now);
    case CrossJob(j, now) =>
      if j < |w.jobs| && w.jobs[j].stage.Loaded? {
        CrossKeepsTied(w, j, now);
      }
    case CallStripe(j, version, first) =>
      if j < |w.jobs| && w.jobs[j].stage.Crossed? {
        CallKeepsTied(w, j, version, first);
      }
  }

  lemma {:induction false} RunKeepsTied(db: Db, events: seq<Event>)
    requires HonestRun(Fresh(db), events)
    ensures Tied(RunWorld(Fresh(db), events))
  {
    if events != [] {
      RunKeepsTied(db, events[..|events| - 1]);
      EventKeepsTied(RunWorld(Fresh(db), events[..|events| - 1]), events[|events| - 1]);
    }
  }

  /** Every event moves the database by at most one store step. */
  lemma EventIsStep(w: World, e: Event) returns (a: Option<Action>)
    ensures a.None? ==> Next(w, e).db == w.db
    ensures a.Some? ==> Next(w, e).db == Step(w.db, a.value) && (a.value.Load? || a.value.Boundary? || e == Act(a.value))
  {
    a := None;
    match e
    case Act(action) => a := Some(action);
    case StartJob(id, now) => if RefundIdempotencyKey(id).Some? { a := Some(Load(id, KeyOf(id), now)); }
    case CrossJob(j, now) =>
      if j < |w.jobs| && w.jobs[j].stage.Loaded? { a := Some(Boundary(w.jobs[j].id, KeyOf(w.jobs[j].id), now)); }
    case CallStripe(j, version, first) =>
  }

  /** Rows stay sound and guards unique, as in every run of store steps. */
  lemma {:induction false} RunKeepsRowsSound(db: Db, events: seq<Event>)
    ensures RowsSound(RunWorld(Fresh(db), events).db) && GuardsUnique(RunWorld(Fresh(db), events).db)
  {
    if events != [] {
      RunKeepsRowsSound(db, events[..|events| - 1]);
      var w := RunWorld(Fresh(db), events[..|events| - 1]);
      var a := EventIsStep(w, events[|events| - 1]);
      if a.Some? {
        StepKeepsGuards(w.db, a.value);
      }
    }
  }

  // ------------------------------------------------------------- theorems

  /** At most one refund a request, over every run. */
  lemma AtMostOneRefundPerRequest(db: Db, events: seq<Event>, i: nat, j: nat)
    requires HonestRun(Fresh(db), events)
    requires var s := RunWorld(Fresh(db), events).stripe;
             i < |s.refunds| && j < |s.refunds| && s.refunds[i].params.requestId == s.refunds[j].params.requestId
    ensures i == j
  {
    RunKeepsTied(db, events);
    var w := RunWorld(Fresh(db), events);
    assert WrittenAhead(w.db, w.stripe.refunds[i]) && WrittenAhead(w.db, w.stripe.refunds[j]);
  }

  /** The refund is for exactly the payment, amount and reason requested. */
  predicate RefundsRequest(x: Params, s: Snapshot) {
    && x.requestId == s.requestId && x.environment == s.environment
    && x.paymentKey == s.paymentKey && x.paymentIntentId == s.paymentIntentId && x.chargeId == s.chargeId
    && x.amountMinor == s.amountMinor && x.currency == s.currency && x.reason == s.reason
  }

  /** Every refund in Stripe was written ahead: its request has crossed the
      boundary and durably holds the very key and parameters of the refund, which
      are those of the request, on the account of the request's installation. */
  lemma EveryRefundIsWrittenAhead(db: Db, events: seq<Event>, i: nat)
    requires HonestRun(Fresh(db), events) && i < |RunWorld(Fresh(db), events).stripe.refunds|
    ensures var w := RunWorld(Fresh(db), events);
            var x := w.stripe.refunds[i];
            && WrittenAhead(w.db, x)
            && RefundsRequest(x.params, w.db.rows[x.params.requestId].snap)
            && x.params.stripeAccountId == Account(w.db, w.db.rows[x.params.requestId].snap)
            && RefundIdempotencyKey(x.params.requestId) == Some(x.key)
  {
    RunKeepsTied(db, events);
    var w := RunWorld(Fresh(db), events);
    var x := w.stripe.refunds[i];
    assert WrittenAhead(w.db, x);
    assert RowTied(w.db, x.params.requestId);
  }

  /** Which requests a boundary step lets through. */
  predicate MayCross(db: Db, r: Row) {
    && r.status == Executing && GateOpen(db, r) && LinkOf(r).None?
    && (r.effect == NotStarted || (r.effect == AbsenceProven && r.execution.Some?))
  }

  lemma TiedRowCrosses(db: Db, id: string)
    requires id in db.rows && RowTied(db, id) && MayCross(db, db.rows[id])
    ensures CrossBoundary(db.rows[id], Account(db, db.rows[id].snap), KeyOf(id)).Some? && !MustReconcile(db.rows[id], KeyOf(id))
  {
  }

  lemma TiedBoundaryDecides(db: Db, id: string, now: Time)
    requires id in db.rows && RowTied(db, id)
    ensures var decision := PersistEffectBoundary(db, id, KeyOf(id), now).1;
            decision != BoundaryThrew && (decision.Execute? <==> MayCross(db, db.rows[id]))
  {
    if MayCross(db, db.rows[id]) {
      TiedRowCrosses(db, id);
    }
  }

  /** Over every honest run the boundary never meets an idempotency conflict, and
      it lets through exactly the executing requests without a linked refund whose
      gate is open and whose effect is certainly absent. */
  lemma BoundaryNeverThrows(db: Db, events: seq<Event>, id: string, now: Time)
    requires HonestRun(Fresh(db), events) && id in RunWorld(Fresh(db), events).db.rows
    ensures var reached := RunWorld(Fresh(db), events).db;
            var decision := PersistEffectBoundary(reached, id, KeyOf(id), now).1;
            decision != BoundaryThrew && (decision.Execute? <==> MayCross(reached, reached.rows[id]))
  {
    RunKeepsTied(db, events);
    TiedBoundaryDecides(RunWorld(Fresh(db), events).db, id, now);
  }

  /** All answers that any jobs of one request ever got name the same refund,
      whatever signing keys were rotated in between. */
  lemma EveryAnswerNamesTheSameRefund(db: Db, events: seq<Event>, i: nat, j: nat)
    requires HonestRun(Fresh(db), events)
    requires var w := RunWorld(Fresh(db), events);
             i < |w.results| && j < |w.results| && w.results[i].id == w.results[j].id
    ensures var w := RunWorld(Fresh(db), events);
            w.results[i].result.Returns? && w.results[j].result.Returns? ==> w.results[i].result.refund == w.results[j].result.refund
  {
    RunKeepsTied(db, events);
    var w := RunWorld(Fresh(db), events);
    assert ResultTied(w.stripe, w.results[i]) && ResultTied(w.stripe, w.results[j]);
  }

  /** Exactly when the next call of a job meets a parameter conflict, after any
      run: when the key's refund carries a proof of another signing version. */
  lemma CallConflictsIffRotated(db: Db, events: seq<Event>, j: nat, version: string, first: FirstUse)
    requires HonestRun(Fresh(db), events)
    requires var w := RunWorld(Fresh(db), events);
             j < |w.jobs| && w.jobs[j].stage.Crossed?
    ensures var w := RunWorld(Fresh(db), events);
            var key := KeyOf(w.jobs[j].id);
            CreateRefund(w.stripe, key, w.jobs[j].params, version, first).1.ParameterConflict?
            <==> key in w.stripe.byKey && w.stripe.byKey[key].proofVersion != version
  {
    RunKeepsTied(db, events);
    CallIsTied(RunWorld(Fresh(db), events), j, version, first);
  }

  /** All calls of the run are signed under one version. */
  predicate OneVersion(events: seq<Event>, version: string) {
    forall k | 0 <= k < |events| && events[k].CallStripe? :: events[k].version == version
  }

  predicate SignedUnder(s: Stripe, results: seq<Reply>, version: string) {
    && (forall i | 0 <= i < |s.refunds| :: s.refunds[i].proofVersion == version)
    && (forall i | 0 <= i < |results| :: !results[i].result.ParameterConflict?)
  }

  /** Without a rotation of the signing key no call of any run conflicts. */
  lemma {:induction false} OneVersionNeverConflicts(db: Db, events: seq<Event>, version: string)
    requires HonestRun(Fresh(db), events) && OneVersion(events, version)
    ensures SignedUnder(RunWorld(Fresh(db), events).stripe, RunWorld(Fresh(db), events).results, version)
  {
    if events != [] {
      var before := events[..|events| - 1];
      OneVersionNeverConflicts(db, before, version);
      RunKeepsTied(db, before);
      NextKeepsVersion(RunWorld(Fresh(db), before), events[|events| - 1], version);
    }
  }

  lemma OnlyCallsTouchStripe(w: World, e: Event)
    requires !(e.CallStripe? && e.job < |w.jobs| && w.jobs[e.job].stage.Crossed?)
    ensures Next(w, e).stripe == w.stripe && Next(w, e).results == w.results
  {
  }

  lemma UsedKeyIsSignedUnder(s: Stripe, results: seq<Reply>, key: string, version: string)
    requires LedgerTied(s) && SignedUnder(s, results, version) && key in s.byKey
    ensures s.byKey[key].proofVersion == version
  {
    var i :| 0 <= i < |s.refunds| && s.refunds[i] == s.byKey[key];
  }

  lemma SignedUnderExtends(s: Stripe, s': Stripe, results: seq<Reply>, x: Reply, version: string)
    requires SignedUnder(s, results, version) && !x.result.ParameterConflict?
    requires s'.refunds == s.refunds
             || (|s'.refunds| == |s.refunds| + 1 && s'.refunds[..|s.refunds|] == s.refunds
                 && s'.refunds[|s.refunds|].proofVersion == version)
    ensures SignedUnder(s', results + [x], version)
  {
    assert forall i | 0 <= i < |s.refunds| :: s'.refunds[i] == s.refunds[i];
  }

  lemma CallKeepsVersion(w: World, j: nat, version: string, first: FirstUse)
    requires Tied(w) && j < |w.jobs| && w.jobs[j].stage.Crossed? && SignedUnder(w.stripe, w.results, version)
    ensures var result := CreateRefund(w.stripe, KeyOf(w.jobs[j].id), w.jobs[j].params, version, first);
            SignedUnder(result.0, w.results + [Reply(w.jobs[j].id, version, result.1)], version)
  {
    var key := KeyOf(w.jobs[j].id);
    var result := CreateRefund(w.stripe, key, w.jobs[j].params, version, first);
    if key in w.stripe.byKey {
      UsedKeyHasSameParams(w, j);
      UsedKeyIsSignedUnder(w.stripe, w.results, key, version);
    }
    SignedUnderExtends(w.stripe, result.0, w.results, Reply(w.jobs[j].id, version, result.1), version);
  }

  lemma NextKeepsVersion(w: World, e: Event, version: string)
    requires Tied(w) && (e.CallStripe? ==> e.version == version) && SignedUnder(w.stripe, w.results, version)
    ensures SignedUnder(Next(w, e).stripe, Next(w, e).results, version)
  {
    if e.CallStripe? && e.job < |w.jobs| && w.jobs[e.job].stage.Crossed? {
      CallKeepsVersion(w, e.job, version, e.first);
    } else {
      OnlyCallsTouchStripe(w, e);
    }
  }
}
