/** From approval to money: every refund Stripe ever holds was signed off, as it
    is, by a second person. Joins the attestation argument of FourEyes with the
    write-ahead argument of StripeEffects. */
module ApprovedRefunds {
  import opened Prelude
  import opened Domain
  import opened Execution
  import opened Attestation
  import opened RefundRow
  import opened Tenant
  import opened TenantTheorems
  import opened StripeEffects
  import Eyes = FourEyes

  /** Honest, and no approval is stored with a token the worker did not sign. */
  predicate Entitled(w: World, e: Event) {
    Honest(w, e) && (e.Act? ==> Eyes.Feasible(w.db, Eyes.Act(e.action)))
  }

  predicate EntitledRun(w: World, events: seq<Event>) {
    events == []
    || (EntitledRun(w, events[..|events| - 1]) && Entitled(RunWorld(w, events[..|events| - 1]), events[|events| - 1]))
  }

  lemma {:induction false} EntitledRunIsHonest(w: World, events: seq<Event>)
    requires EntitledRun(w, events)
    ensures HonestRun(w, events)
  {
    if events != [] {
      EntitledRunIsHonest(w, events[..|events| - 1]);
    }
  }

  /** A genuine signed payload of a second person for this very snapshot. */
  predicate SignedFor(signed: set<Payload>, s: Snapshot, p: Payload) {
    && p in signed && Eyes.Genuine(p)
    && p.requestId == s.requestId && p.environment == s.environment
    && p.paymentKey == s.paymentKey && p.paymentIntentId == s.paymentIntentId && Some(p.chargeId) == s.chargeId
    && p.amountMinor == s.amountMinor && p.currency == s.currency && p.reason == s.reason
    && p.requesterUserId == s.requesterUserId && p.approverUserId != s.requesterUserId
  }

  ghost predicate RowApproved(signed: set<Payload>, r: Row) {
    CallOf(r).Some? ==> exists p :: SignedFor(signed, r.snap, p)
  }

  ghost predicate AllApproved(db: Db) { forall id | id in db.rows :: RowApproved(db.signed, db.rows[id]) }

  lemma StepOnlyAddsSignatures(db: Db, a: Action)
    ensures db.signed <= Step(db, a).signed
  {
    if !a.Attest? {
      Eyes.OnlyAttestSigns(db, a);
    }
  }

  lemma ApprovalSurvives(signed: set<Payload>, signed': set<Payload>, r: Row, r': Row)
    requires RowApproved(signed, r) && signed <= signed' && r'.snap == r.snap && CallOf(r') == CallOf(r)
    ensures RowApproved(signed', r')
  {
    if CallOf(r).Some? {
      var p :| SignedFor(signed, r.snap, p);
      assert SignedFor(signed', r'.snap, p);
    }
  }

  lemma EvolutionKeepsApproved(db: Db, db': Db)
    requires AllApproved(db) && Evolves(db, db') && db.signed <= db'.signed
    ensures AllApproved(db')
  {
    forall id | id in db'.rows
      ensures RowApproved(db'.signed, db'.rows[id])
    {
      var txs :| Quiet(txs) && db'.rows[id] == Run(db.rows[id], txs);
      QuietRunKeepsCall(db.rows[id], txs);
      ApprovalSurvives(db.signed, db'.signed, db.rows[id], db'.rows[id]);
    }
  }

  lemma OneRowKeepsApproved(db: Db, db': Db, id: string, r': Row)
    requires AllApproved(db) && db' == SetRow(db, id, r') && RowApproved(db.signed, r')
    ensures AllApproved(db')
  {
    forall i | i in db'.rows
      ensures RowApproved(db'.signed, db'.rows[i])
    {
      assert i != id ==> RowApproved(db.signed, db.rows[i]);
    }
  }

  /** The open gate is what ties a crossing to its signature. */
  lemma CrossingIsApproved(db: Db, a: Action, db': Db)
    requires Eyes.Kept(db) && AllApproved(db) && CrossesBy(db, a, db')
    ensures AllApproved(db')
  {
    var r := db.rows[a.id];
    Eyes.CrossingIsAttested(db, a, db');
    var p :| Eyes.AttestedBySecondPerson(db, r, p);
    CrossingRecordsCall(r, db.installations[r.snap.installationId].stripeAccountId, a.key);
    assert SignedFor(db.signed, db'.rows[a.id].snap, p);
    OneRowKeepsApproved(db, db', a.id, db'.rows[a.id]);
  }

  lemma ApprovingKeepsApproved(db: Db, a: Action, db': Db)
    requires AllApproved(db) && ApprovesBy(db, a, db')
    ensures AllApproved(db')
  {
    var r' := ApproveRow(db.rows[a.id], ApprovalBy(a)).value;
    ApprovalSurvives(db.signed, db.signed, db.rows[a.id], r');
    OneRowKeepsApproved(db, db', a.id, r');
  }

  lemma ActKeepsApproved(db: Db, a: Action)
    requires Eyes.Kept(db) && AllApproved(db) && Eyes.Feasible(db, Eyes.Act(a))
    ensures Eyes.Kept(Step(db, a)) && AllApproved(Step(db, a))
  {
    var db' := Step(db, a);
    Eyes.ActKeeps(db, a);
    StepShape(db, a);
    StepOnlyAddsSignatures(db, a);
    if Evolves(db, db') {
      EvolutionKeepsApproved(db, db');
    } else if CrossesBy(db, a, db') {
      CrossingIsApproved(db, a, db');
    } else if ApprovesBy(db, a, db') {
      ApprovingKeepsApproved(db, a, db');
    } else {
      OneRowKeepsApproved(db, db', a.snap.requestId, NewRow(a.snap));
    }
  }

  lemma {:induction false} RunKeepsApproved(db: Db, events: seq<Event>)
    requires db.signed == {} && EntitledRun(Fresh(db), events)
    ensures Eyes.Kept(RunWorld(Fresh(db), events).db) && AllApproved(RunWorld(Fresh(db), events).db)
  {
    if events != [] {
      RunKeepsApproved(db, events[..|events| - 1]);
      var w := RunWorld(Fresh(db), events[..|events| - 1]);
      var a := EventIsStep(w, events[|events| - 1]);
      if a.Some? {
        ActKeepsApproved(w.db, a.value);
      }
    }
  }

  /** The end-to-end promise. Over every run of web users, workers, webhooks,
      scans and crashes, each refund that Stripe holds for a request is for the
      payment, the amount, the currency and the reason that a second person,
      different from the requester, was attested to have approved. */
  lemma EveryRefundWasApproved(db: Db, events: seq<Event>, i: nat)
    requires db.signed == {} && EntitledRun(Fresh(db), events)
    requires i < |RunWorld(Fresh(db), events).stripe.refunds|
    ensures var w := RunWorld(Fresh(db), events);
            var x := w.stripe.refunds[i].params;
            exists p :: && p in w.db.signed && Eyes.Genuine(p) && p.approverUserId != p.requesterUserId
                        && p.requestId == x.requestId && p.environment == x.environment
                        && p.paymentKey == x.paymentKey && p.paymentIntentId == x.paymentIntentId && Some(p.chargeId) == x.chargeId
                        && p.amountMinor == x.amountMinor && p.currency == x.currency && p.reason == x.reason
  {
    EntitledRunIsHonest(Fresh(db), events);
    EveryRefundIsWrittenAhead(db, events, i);
    RunKeepsApproved(db, events);
    var w := RunWorld(Fresh(db), events);
    var r := w.db.rows[w.stripe.refunds[i].params.requestId];
    assert RowApproved(w.db.signed, r);
    var p :| SignedFor(w.db.signed, r.snap, p);
  }
}
