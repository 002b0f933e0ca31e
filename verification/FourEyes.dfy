/** Four eyes at every boundary, even when every row of the database may be
    rewritten: only the attestation signature is beyond the tamperer's reach. */
module FourEyes {
  import opened Prelude
  import opened Domain
  import opened Execution
  import opened Attestation
  import opened RefundRow
  import opened RowTheorems
  import opened Tenant
  import opened TenantTheorems

  /** What every signed payload promises. */
  predicate Genuine(p: Payload) {
    && Consistent(p)
    && p.requiredApprovals == 1
    && p.consumeBefore <= p.verifiedAt + ATTESTATION_LIFETIME_MS
  }

  /** Unforgeability: every stored token was signed by the worker. */
  predicate TokensSigned(rows: map<string, Row>, signed: set<Payload>) {
    forall id | id in rows && rows[id].approval.Some? && rows[id].approval.value.attestation.Some? ::
      rows[id].approval.value.attestation.value.token in signed
  }

  predicate Kept(db: Db) { TokensSigned(db.rows, db.signed) && forall p | p in db.signed :: Genuine(p) }

  /** A store step, or an arbitrary rewrite of requests, people and installations. */
  datatype Event =
    | Act(action: Action)
    | Tamper(rows: map<string, Row>, users: map<string, User>, installations: map<string, Installation>)

  predicate Feasible(db: Db, e: Event) {
    match e
    case Act(a) => a.Decide? && a.attestation.Some? ==> a.attestation.value.token in db.signed
    case Tamper(rows, _, _) => TokensSigned(rows, db.signed)
  }

  function Happen(db: Db, e: Event): Db {
    match e
    case Act(a) => Step(db, a)
    case Tamper(rows, users, installations) => db.(rows := rows, users := users, installations := installations)
  }

  function History(db: Db, events: seq<Event>): Db {
    if events == [] then db else Happen(History(db, events[..|events| - 1]), events[|events| - 1])
  }

  predicate FeasibleHistory(db: Db, events: seq<Event>) {
    events == []
    || (FeasibleHistory(db, events[..|events| - 1]) && Feasible(History(db, events[..|events| - 1]), events[|events| - 1]))
  }

  // -------------------------------------------------- the signed set is genuine

  lemma {:induction false} QuietRunKeepsApproval(r: Row, txs: seq<RowTx>)
    requires Quiet(txs)
    ensures Run(r, txs).approval == r.approval
  {
    if txs != [] {
      QuietRunKeepsApproval(r, txs[..|txs| - 1]);
      var before := Run(r, txs[..|txs| - 1]);
      assert SameRequest(before, Apply(before, txs[|txs| - 1]));
    }
  }

  lemma EvolutionKeepsTokens(db: Db, db': Db)
    requires TokensSigned(db.rows, db.signed) && Evolves(db, db') && db.signed <= db'.signed
    ensures TokensSigned(db'.rows, db'.signed)
  {
    forall id | id in db.rows
      ensures db'.rows[id].approval == db.rows[id].approval
    {
      var txs :| Quiet(txs) && db'.rows[id] == Run(db.rows[id], txs);
      QuietRunKeepsApproval(db.rows[id], txs);
    }
  }

  lemma SigningIsGenuine(db: Db, id: string, approver: string, aid: string, input: AttestInput)
    requires PersistApprovalAttestation(db, id, approver, aid, input).Some?
    ensures var (db', row) := PersistApprovalAttestation(db, id, approver, aid, input).value;
            Genuine(row.token) && db'.signed == db.signed + {row.token} && db'.rows == db.rows
  {
  }

  /** Only the worker's attestation step extends the signed set. */
  lemma OnlyAttestSigns(db: Db, a: Action)
    requires !a.Attest?
    ensures Step(db, a).signed == db.signed
  {
  }

  lemma CrossingKeepsTokens(db: Db, a: Action, db': Db)
    requires TokensSigned(db.rows, db.signed) && CrossesBy(db, a, db')
    ensures TokensSigned(db'.rows, db'.signed)
  {
    assert SameRequest(db.rows[a.id], db'.rows[a.id]);
  }

  lemma ActKeeps(db: Db, a: Action)
    requires Kept(db) && Feasible(db, Act(a))
    ensures Kept(Step(db, a))
  {
    var db' := Step(db, a);
    if a.Attest? {
      if PersistApprovalAttestation(db, a.id, a.approverUserId, a.attestationId, a.input).Some? {
        SigningIsGenuine(db, a.id, a.approverUserId, a.attestationId, a.input);
      }
    } else {
      OnlyAttestSigns(db, a);
      StepShape(db, a);
      if Evolves(db, db') {
        EvolutionKeepsTokens(db, db');
      } else if CrossesBy(db, a, db') {
        CrossingKeepsTokens(db, a, db');
      }
    }
  }

  lemma {:induction false} HistoryKeeps(db: Db, events: seq<Event>)
    requires db.rows == map[] && db.signed == {} && FeasibleHistory(db, events)
    ensures Kept(History(db, events))
  {
    if events != [] {
      HistoryKeeps(db, events[..|events| - 1]);
      var e := events[|events| - 1];
      if e.Act? {
        ActKeeps(History(db, events[..|events| - 1]), e.action);
      }
    }
  }

  // ----------------------------------------------------------- the theorem

  /** A signed payload for exactly this request as it now stands, by somebody
      else than the requester who is still enabled, decided inside the signed
      window, which closes no later than the request's expiry. */
  predicate AttestedBySecondPerson(db: Db, r: Row, p: Payload) {
    && p in db.signed && Genuine(p) && r.approval.Some?
    && p.requestId == r.snap.requestId && p.tenantId == r.snap.tenantId && p.installationId == r.snap.installationId
    && p.environment == r.snap.environment
    && p.paymentKey == r.snap.paymentKey && p.paymentIntentId == r.snap.paymentIntentId && Some(p.chargeId) == r.snap.chargeId
    && p.amountMinor == r.snap.amountMinor && p.currency == r.snap.currency && p.reason == r.snap.reason
    && p.requesterUserId == r.snap.requesterUserId && p.approverUserId == r.approval.value.approverUserId
    && p.approverUserId != p.requesterUserId && p.approverStripeUserId != p.requesterStripeUserId
    && p.approverUserId in db.users && db.users[p.approverUserId].approverEnabled
    && db.users[p.approverUserId].stripeUserId == p.approverStripeUserId
    && p.verifiedAt <= r.approval.value.decidedAt < p.consumeBefore <= p.expiresAt == r.snap.expiresAt
    && VersionIsCompatible(r.status, r.effect, r.version, r.execution, p.requestVersion)
  }

  lemma OpenGateIsAttested(db: Db, r: Row)
    requires Kept(db) && GateOpen(db, r)
    requires r.approval.value.attestation.value.token in db.signed
    ensures AttestedBySecondPerson(db, r, r.approval.value.attestation.value.token)
  {
  }

  lemma CrossingIsAttested(db: Db, a: Action, after: Db)
    requires Kept(db) && CrossesBy(db, a, after)
    ensures exists p :: AttestedBySecondPerson(db, db.rows[a.id], p)
  {
    OpenGateIsAttested(db, db.rows[a.id]);
  }

  /** Four eyes, end to end. Whatever steps and rewrites came before, if the
      effect boundary tells the worker to execute, the request was attested, as
      it stands, by a second enabled person inside the attestation window. */
  lemma EveryCrossingHasFourEyes(db: Db, events: seq<Event>, id: string, key: string, now: Time)
    requires db.rows == map[] && db.signed == {} && FeasibleHistory(db, events)
    requires PersistEffectBoundary(History(db, events), id, key, now).1.Execute?
    ensures id in History(db, events).rows
    ensures exists p :: AttestedBySecondPerson(History(db, events), History(db, events).rows[id], p)
  {
    HistoryKeeps(db, events);
    ExecuteIsAttested(History(db, events), id, key, now);
  }

  lemma ExecuteIsAttested(db: Db, id: string, key: string, now: Time)
    requires Kept(db) && PersistEffectBoundary(db, id, key, now).1.Execute?
    ensures id in db.rows && exists p :: AttestedBySecondPerson(db, db.rows[id], p)
  {
    ExecuteMeansCrossed(db, id, key, now);
    CrossingIsAttested(db, Boundary(id, key, now), PersistEffectBoundary(db, id, key, now).0);
  }
}
