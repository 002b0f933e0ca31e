/** What the commit of a scan does to the requests of a tenant, and when it
    cannot commit. */
module ScanOutcomes {
  import opened Prelude
  import opened Domain
  import opened Observation
  import opened Execution
  import opened Attestation
  import opened RefundRow
  import opened RowInvariant
  import opened RowTheorems
  import opened RowOutcomes
  import opened Tenant
  import opened TenantTheorems

  predicate AlertOn(db: Db, installationId: string, s: Snapshot) {
    exists k | k in db.alerts ::
      k.0 == installationId && db.alerts[k].environment == s.environment && db.alerts[k].paymentKey == s.paymentKey
  }

  /** A candidate of the scan's installation that this very scan has seen. */
  predicate SeenNow(r: Row, scan: CompletedScan) {
    exists c | c in r.candidates ::
      r.candidates[c].tuple.installationId == scan.installationId && r.candidates[c].lastSeenWindowEnd == Some(scan.windowEnd)
  }

  lemma CommittedRow(db: Db, scan: CompletedScan, id: string)
    requires ResolveAll(db, scan).Some? && id in db.rows
    ensures id in ResolveAll(db, scan).value.rows
    ensures Selected(db.rows[id], scan) ==> Some(ResolveAll(db, scan).value.rows[id]) == ResolveIn(db.rows[id], db.alerts, id, scan)
    ensures !Selected(db.rows[id], scan) ==> ResolveAll(db, scan).value.rows[id] == db.rows[id]
  {
  }

  lemma ResolvedRow(db: Db, scan: CompletedScan, id: string)
    requires id in db.rows && ResolveIn(db.rows[id], db.alerts, id, scan).Some?
    ensures ResolveIn(db.rows[id], db.alerts, id, scan).value
            == Apply(db.rows[id], TxResolve(AlertOn(db, scan.installationId, db.rows[id].snap), FirstListed(scan, id),
                                            scan.windowStart, scan.windowEnd, scan.now))
  {
  }

  /** Every committed scan resumes the ambiguities it covers: a reconciling request
      of its installation with a possible effect, its whole execution inside the
      window, never sighted and without an alert, executes again. */
  lemma ScanResumesCoveredAmbiguity(db: Db, scan: CompletedScan, id: string)
    requires RowsSound(db) && ResolveAll(db, scan).Some? && id in db.rows
    requires CoveredAmbiguity(db.rows[id], scan.windowStart, scan.windowEnd)
    requires db.rows[id].snap.installationId == scan.installationId && !AlertOn(db, scan.installationId, db.rows[id].snap)
    ensures var r, r' := db.rows[id], ResolveAll(db, scan).value.rows[id];
            && r'.status == Executing && r'.effect == AbsenceProven && r'.executionStartedAt == Some(scan.now)
            && r'.version == r.version + 2 && LinkOf(r').None? && AttemptsOf(r') == AttemptsOf(r)
  {
    var r := db.rows[id];
    CommittedRow(db, scan, id);
    ResolvedRow(db, scan, id);
    CoveredAmbiguityResumes(r, FirstListed(scan, id), scan.windowStart, scan.windowEnd, scan.now);
  }

  /** With an alert on the payment the same request is left as it is. */
  lemma ScanHoldsAlertedAmbiguity(db: Db, scan: CompletedScan, id: string)
    requires RowsSound(db) && ResolveAll(db, scan).Some? && id in db.rows
    requires CoveredAmbiguity(db.rows[id], scan.windowStart, scan.windowEnd)
    requires db.rows[id].snap.installationId == scan.installationId && AlertOn(db, scan.installationId, db.rows[id].snap)
    ensures ResolveAll(db, scan).value.rows[id] == db.rows[id]
  {
    var r := db.rows[id];
    CommittedRow(db, scan, id);
    ResolvedRow(db, scan, id);
    AlertedAmbiguityStays(r, FirstListed(scan, id), scan.windowStart, scan.windowEnd, scan.now);
  }

  /** A single unproven candidate that this scan has seen is linked; its status
      concludes the request unless the payment has an alert. */
  lemma ScanLinksSingleCandidate(db: Db, scan: CompletedScan, id: string)
    requires RowsSound(db) && ResolveAll(db, scan).Some? && id in db.rows
    requires SingleCandidate(db.rows[id], FirstListed(scan, id), scan.windowStart, scan.windowEnd) && SeenNow(db.rows[id], scan)
    ensures var r, r', first := db.rows[id], ResolveAll(db, scan).value.rows[id], FirstListed(scan, id);
            && Stores(r', first, r.candidates[first].status)
            && (!AlertOn(db, scan.installationId, r.snap) ==> Concluded(r, r', r.candidates[first].status, scan.now))
            && (AlertOn(db, scan.installationId, r.snap) ==> Preserved(r, r'))
  {
    var r, first := db.rows[id], FirstListed(scan, id);
    CommittedRow(db, scan, id);
    ResolvedRow(db, scan, id);
    SingleCandidateLinks(r, AlertOn(db, scan.installationId, r.snap), first, scan.windowStart, scan.windowEnd, scan.now);
  }

  /** Everything else is left alone: requests the window does not cover, linked
      ones, ones that never crossed, and ones neither sighted by this scan nor
      ambiguous in its installation. */
  lemma ScanLeavesTheRest(db: Db, scan: CompletedScan, id: string)
    requires ResolveAll(db, scan).Some? && id in db.rows
    requires var r := db.rows[id];
             || !ScanCovers(r, scan.windowStart, scan.windowEnd) || LinkOf(r).Some? || r.execution.None?
             || (!SeenNow(r, scan)
                 && !(r.snap.installationId == scan.installationId && r.status == ReconciliationRequired && r.effect == Possible
                      && r.guardReleasedAt.None?))
    ensures ResolveAll(db, scan).value.rows[id] == db.rows[id]
  {
    CommittedRow(db, scan, id);
  }

  /** The scan lists candidates that exist, with valid identifiers. */
  predicate ProperListing(db: Db, scan: CompletedScan) {
    forall id | id in db.rows && db.rows[id].candidates != map[] ::
      FirstListed(scan, id) in db.rows[id].candidates && IsRefundId(FirstListed(scan, id))
  }

  predicate StuckIn(db: Db, scan: CompletedScan, id: string)
    requires id in db.rows
  {
    && SeenNow(db.rows[id], scan)
    && Stuck(db.rows[id], AlertOn(db, scan.installationId, db.rows[id].snap), FirstListed(scan, id), scan.windowStart, scan.windowEnd)
  }

  lemma SelectedMeans(r: Row, scan: CompletedScan)
    requires Selected(r, scan)
    ensures r.candidates == map[] ==> r.status == ReconciliationRequired && r.effect == Possible
    ensures r.effect != Possible ==> SeenNow(r, scan)
  {
  }

  lemma ResolveInIsTry(db: Db, scan: CompletedScan, id: string)
    requires id in db.rows
    ensures ResolveIn(db.rows[id], db.alerts, id, scan)
            == Try(db.rows[id], TxResolve(AlertOn(db, scan.installationId, db.rows[id].snap), FirstListed(scan, id),
                                          scan.windowStart, scan.windowEnd, scan.now))
  {
  }

  lemma SelectedRowThrowsIff(db: Db, scan: CompletedScan, id: string)
    requires RowsSound(db) && ProperListing(db, scan) && id in db.rows && Selected(db.rows[id], scan)
    ensures ResolveIn(db.rows[id], db.alerts, id, scan).None? <==> StuckIn(db, scan, id)
  {
    var r := db.rows[id];
    var alert := AlertOn(db, scan.installationId, r.snap);
    SelectedMeans(r, scan);
    ResolveInIsTry(db, scan, id);
    ResolutionThrowsIff(r, alert, FirstListed(scan, id), scan.windowStart, scan.windowEnd, scan.now);
    assert Stuck(r, alert, FirstListed(scan, id), scan.windowStart, scan.windowEnd) ==> r.effect != Possible;
  }

  /** Exactly when a scan cannot commit: when some request whose effect was declared
      absent has a single sighted candidate and no alert. Its checkpoint then stays,
      and so does the failure, for as long as that refund is listed. */
  lemma ScanCannotCommitIff(db: Db, scan: CompletedScan)
    requires RowsSound(db) && ProperListing(db, scan)
    ensures ResolveAll(db, scan).None? <==> exists id | id in db.rows :: StuckIn(db, scan, id)
  {
    if ResolveAll(db, scan).None? {
      var id :| id in db.rows && Selected(db.rows[id], scan) && ResolveIn(db.rows[id], db.alerts, id, scan).None?;
      SelectedRowThrowsIff(db, scan, id);
    }
    if id :| id in db.rows && StuckIn(db, scan, id) {
      SelectedRowThrowsIff(db, scan, id);
    }
  }
}
