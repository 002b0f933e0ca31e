/** The in-memory edge admission gate: per class a bounded, swept map of
    per-source GCRA buckets (Annex A of ITU-T Recommendation I.371), a shared
    bucket, and leases whose closures keep pointing at their source object.

    JavaScript object identity is explicit: a lane's `objects` are the source
    objects ever created, `sources` maps a key to the object it refers to. */
module EdgeAdmission {
  import opened Prelude

  datatype RequestClass = AccountWebhook | AuditDownload | SignedApi

  datatype RatePolicy = RatePolicy(burst: int, intervalMs: int)

  datatype ClassPolicy = ClassPolicy(concurrency: int, global: RatePolicy, source: RatePolicy)

  const SOURCE_IDLE_MS: int := 5 * 60 * 1_000
  const SWEEP_INTERVAL_MS: int := 60 * 1_000

  function Capacity(c: RequestClass): nat {
    match c
    case AccountWebhook => 64
    case AuditDownload => 64
    case SignedApi => 1_920
  }

  predicate PositiveUpTo(value: int, maximum: int) { 0 < value <= maximum }

  /** What the constructor accepts of a merged policy. */
  predicate Accepted(p: ClassPolicy) {
    && PositiveUpTo(p.concurrency, 100_000)
    && PositiveUpTo(p.global.burst, 1_000_000) && PositiveUpTo(p.global.intervalMs, 3_600_000)
    && PositiveUpTo(p.source.burst, 1_000_000) && PositiveUpTo(p.source.intervalMs, 3_600_000)
  }

  datatype Policies = Policies(webhook: ClassPolicy, audit: ClassPolicy, api: ClassPolicy)

  function PolicyOf(ps: Policies, c: RequestClass): ClassPolicy {
    match c
    case AccountWebhook => ps.webhook
    case AuditDownload => ps.audit
    case SignedApi => ps.api
  }

  predicate AllAccepted(ps: Policies) { forall c: RequestClass :: Accepted(PolicyOf(ps, c)) }

  // ------------------------------------------------------------------ GCRA

  datatype Preview = Conforming(nextTatMs: int) | TooEarly(retryAfterSeconds: int)

  function CeilDiv(a: int, b: int): int
    requires b > 0
  { -((-a) / b) }

  function EarliestAllowed(tatMs: int, p: RatePolicy): int { tatMs - (p.burst - 1) * p.intervalMs }

  function PreviewGcra(tatMs: int, p: RatePolicy, nowMs: int): Preview {
    if nowMs < EarliestAllowed(tatMs, p) then TooEarly(Max(1, CeilDiv(EarliestAllowed(tatMs, p) - nowMs, 1_000)))
    else Conforming(Max(tatMs, nowMs) + p.intervalMs)
  }

  /** The advertised delay is the least number of whole seconds after which the
      same bucket would admit. */
  lemma RetryAfterIsLeast(tatMs: int, p: RatePolicy, nowMs: int, seconds: int)
    requires PreviewGcra(tatMs, p, nowMs).TooEarly? && seconds >= 0
    ensures PreviewGcra(tatMs, p, nowMs + 1_000 * seconds).Conforming?
            <==> PreviewGcra(tatMs, p, nowMs).retryAfterSeconds <= seconds
  {
  }

  // ------------------------------------------------------------------ state

  datatype Source = Source(activeLeases: int, tatMs: int, lastSeenMs: int)

  /** A granted lease: what its release closure captured, and when and for whom
      it was granted. */
  datatype Lease = Lease(key: string, slot: nat, at: int, released: bool)

  /** Everything the gate keeps for one request class. The list of leases is
      the log of admissions. */
  datatype Lane = Lane(
    globalTatMs: int, overflowTatMs: int, sources: map<string, nat>, objects: seq<Source>,
    lastSweepMs: Option<int>, concurrency: int, leases: seq<Lease>)

  const EMPTY_LANE := Lane(0, 0, map[], [], None, 0, [])

  datatype Gate = Gate(clockMs: int, webhook: Lane, audit: Lane, api: Lane)

  const FRESH_GATE := Gate(0, EMPTY_LANE, EMPTY_LANE, EMPTY_LANE)

  function LaneOf(g: Gate, c: RequestClass): Lane {
    match c
    case AccountWebhook => g.webhook
    case AuditDownload => g.audit
    case SignedApi => g.api
  }

  function WithLane(g: Gate, c: RequestClass, l: Lane): Gate {
    match c
    case AccountWebhook => g.(webhook := l)
    case AuditDownload => g.(audit := l)
    case SignedApi => g.(api := l)
  }

  /** Reading and writing through an object reference. */
  function Deref(objects: seq<Source>, o: nat): Source { if o < |objects| then objects[o] else Source(0, 0, 0) }

  function Assign(objects: seq<Source>, o: nat, s: Source): seq<Source> { if o < |objects| then objects[o := s] else objects }

  datatype DeniedReason =
    | ClockUnavailable | ConcurrencyLimited | EdgeNotTrusted | GlobalRateLimited | OriginTokenForwarded
    | SourceCapacityExceeded | SourceInvalid | SourceRateLimited | WebhookSourceForbidden

  datatype Decision =
    | Allowed(lease: nat)
    | Denied(reason: DeniedReason, status: int, retryAfterSeconds: Option<int>)

  /** What the header checks, which touch no state, made of the request. */
  datatype Headers = Refused(reason: DeniedReason, status: int) | From(key: string)

  // ------------------------------------------------------- specification

  /** The gate clock never runs backwards; None is an unusable clock. */
  function ReadClock(clockMs: int, observed: Option<real>): Option<int> {
    if observed.None? || observed.value < 0.0 then None else Some(Max(clockMs, observed.value.Floor))
  }

  predicate Idle(s: Source, nowMs: int) {
    s.activeLeases == 0 && nowMs - s.lastSeenMs >= SOURCE_IDLE_MS && s.tatMs <= nowMs
  }

  function Swept(l: Lane, nowMs: int): Lane {
    if l.lastSweepMs.Some? && nowMs - l.lastSweepMs.value < SWEEP_INTERVAL_MS then l
    else l.(sources := map k | k in l.sources && !Idle(Deref(l.objects, l.sources[k]), nowMs) :: l.sources[k],
            lastSweepMs := Some(nowMs))
  }

  function CapacityRetryAfterSeconds(l: Lane, nowMs: int): int {
    if l.lastSweepMs.None? then 1
    else Max(1, CeilDiv(l.lastSweepMs.value + SWEEP_INTERVAL_MS - nowMs, 1_000))
  }

  function OverCapacity(l: Lane, p: ClassPolicy, nowMs: int): (Lane, Decision) {
    match PreviewGcra(l.overflowTatMs, p.global, nowMs)
    case Conforming(tat) =>
      (l.(overflowTatMs := tat), Denied(SourceCapacityExceeded, 429, Some(CapacityRetryAfterSeconds(l, nowMs))))
    case TooEarly(retry) =>
      (l, Denied(SourceCapacityExceeded, 429, Some(Max(CapacityRetryAfterSeconds(l, nowMs), retry))))
  }

  function ObjectFor(l: Lane, key: string): nat { if key in l.sources then l.sources[key] else |l.objects| }

  function StateFor(l: Lane, key: string, nowMs: int): Source {
    if key in l.sources then Deref(l.objects, l.sources[key]) else Source(0, 0, nowMs)
  }

  /** An already tracked source is charged before the shared limits are tried. */
  function Charged(l: Lane, key: string, tatMs: int): Lane {
    if key in l.sources
    then l.(objects := Assign(l.objects, l.sources[key], Deref(l.objects, l.sources[key]).(tatMs := tatMs))) else l
  }

  function Granted(l: Lane, key: string, sourceTatMs: int, globalTatMs: int, nowMs: int): Lane {
    var s := Source(StateFor(l, key, nowMs).activeLeases + 1, sourceTatMs, nowMs);
    Lane(globalTatMs, l.overflowTatMs, l.sources[key := ObjectFor(l, key)],
         if key in l.sources then Assign(l.objects, l.sources[key], s) else l.objects + [s],
         l.lastSweepMs, l.concurrency + 1, l.leases + [Lease(key, ObjectFor(l, key), nowMs, false)])
  }

  function Admit(l: Lane, p: ClassPolicy, capacity: nat, key: string, nowMs: int): (Lane, Decision) {
    if key !in l.sources && |l.sources| >= capacity then OverCapacity(l, p, nowMs)
    else
      match PreviewGcra(StateFor(l, key, nowMs).tatMs, p.source, nowMs)
      case TooEarly(retry) => (l, Denied(SourceRateLimited, 429, Some(retry)))
      case Conforming(sourceTat) =>
        match PreviewGcra(l.globalTatMs, p.global, nowMs)
        case TooEarly(retry) => (Charged(l, key, sourceTat), Denied(GlobalRateLimited, 429, Some(retry)))
        case Conforming(globalTat) =>
          if l.concurrency >= p.concurrency then (Charged(l, key, sourceTat), Denied(ConcurrencyLimited, 429, Some(1)))
          else (Granted(l, key, sourceTat, globalTat, nowMs), Allowed(|l.leases|))
  }

  function Acquire(g: Gate, ps: Policies, c: RequestClass, headers: Headers, observed: Option<real>): (Gate, Decision) {
    match headers
    case Refused(reason, status) => (g, Denied(reason, status, None))
    case From(key) =>
      match ReadClock(g.clockMs, observed)
      case None => (g, Denied(ClockUnavailable, 503, None))
      case Some(now) =>
        var (l, decision) := Admit(Swept(LaneOf(g, c), now), PolicyOf(ps, c), Capacity(c), key, now);
        (WithLane(g.(clockMs := now), c, l), decision)
  }

  /** Releasing a lease; the counters are clamped at zero as in the source. */
  function Released(l: Lane, i: nat): Lane {
    if i >= |l.leases| || l.leases[i].released then l
    else
      var s := Deref(l.objects, l.leases[i].slot);
      l.(leases := l.leases[i := l.leases[i].(released := true)],
         objects := Assign(l.objects, l.leases[i].slot, s.(activeLeases := Max(0, s.activeLeases - 1))),
         concurrency := Max(0, l.concurrency - 1))
  }

  datatype Call =
    | AcquireCall(lane: RequestClass, headers: Headers, observed: Option<real>)
    | ReleaseCall(lane: RequestClass, lease: nat)

  function Perform(g: Gate, ps: Policies, call: Call): Gate {
    match call
    case AcquireCall(c, headers, observed) => Acquire(g, ps, c, headers, observed).0
    case ReleaseCall(c, i) => WithLane(g, c, Released(LaneOf(g, c), i))
  }

  /** Any sequence of calls on a fresh gate. */
  function RunGate(ps: Policies, calls: seq<Call>): Gate {
    if calls == [] then FRESH_GATE else Perform(RunGate(ps, calls[..|calls| - 1]), ps, calls[|calls| - 1])
  }

  // ------------------------------------------------------- counting leases

  /** Which leases are counted: optionally of one key or one object, only the
      outstanding ones, granted at or after / at or before an instant. */
  datatype Filter = Filter(key: Option<string>, slot: Option<nat>, onlyOpen: bool, since: Option<int>, until: Option<int>)

  predicate Matches(x: Lease, f: Filter) {
    && (f.key.None? || x.key == f.key.value)
    && (f.slot.None? || x.slot == f.slot.value)
    && (f.onlyOpen ==> !x.released)
    && (f.since.None? || f.since.value <= x.at)
    && (f.until.None? || x.at <= f.until.value)
  }

  function One(b: bool): nat { if b then 1 else 0 }

  function Count(leases: seq<Lease>, f: Filter): nat {
    if leases == [] then 0 else Count(leases[..|leases| - 1], f) + One(Matches(leases[|leases| - 1], f))
  }

  const OUTSTANDING := Filter(None, None, true, None, None)

  function OpenOn(o: nat): Filter { Filter(None, Some(o), true, None, None) }

  /** All admissions, or those of one source, from `since` on. */
  function Since(key: Option<string>, since: int): Filter { Filter(key, None, false, Some(since), None) }

  function Within(key: Option<string>, since: int, until: int): Filter {
    Filter(key, None, false, Some(since), Some(until))
  }

  lemma CountAppend(leases: seq<Lease>, x: Lease, f: Filter)
    ensures Count(leases + [x], f) == Count(leases, f) + One(Matches(x, f))
  {
    assert (leases + [x])[..|leases|] == leases;
  }

  lemma {:induction false} CountUpdate(leases: seq<Lease>, i: nat, x: Lease, f: Filter)
    requires i < |leases|
    ensures Count(leases[i := x], f) == Count(leases, f) - One(Matches(leases[i], f)) + One(Matches(x, f))
  {
    var last := |leases| - 1;
    if i < last {
      CountUpdate(leases[..last], i, x, f);
      assert leases[i := x][..last] == leases[..last][i := x];
    } else {
      assert leases[i := x][..last] == leases[..last];
    }
  }

  lemma {:induction false} CountIsPositive(leases: seq<Lease>, i: nat, f: Filter)
    requires i < |leases| && Matches(leases[i], f)
    ensures Count(leases, f) > 0
  {
    if i < |leases| - 1 {
      CountIsPositive(leases[..|leases| - 1], i, f);
    }
  }

  lemma {:induction false} NothingOpenOnNewObject(leases: seq<Lease>, o: nat)
    requires forall i | 0 <= i < |leases| :: leases[i].slot < o
    ensures Count(leases, OpenOn(o)) == 0
  {
    if leases != [] {
      NothingOpenOnNewObject(leases[..|leases| - 1], o);
    }
  }

  /** An interval holds no more admissions than its unbounded extension. */
  lemma {:induction false} WithinIsFewer(leases: seq<Lease>, key: Option<string>, since: int, until: int)
    ensures Count(leases, Within(key, since, until)) <= Count(leases, Since(key, since))
  {
    if leases != [] {
      WithinIsFewer(leases[..|leases| - 1], key, since, until);
    }
  }

  function Total(objects: seq<Source>): int {
    if objects == [] then 0 else Total(objects[..|objects| - 1]) + objects[|objects| - 1].activeLeases
  }

  lemma {:induction false} TotalUpdate(objects: seq<Source>, o: nat, s: Source)
    requires o < |objects|
    ensures Total(objects[o := s]) == Total(objects) - objects[o].activeLeases + s.activeLeases
  {
    var last := |objects| - 1;
    if o < last {
      TotalUpdate(objects[..last], o, s);
      assert objects[o := s][..last] == objects[..last][o := s];
    } else {
      assert objects[o := s][..last] == objects[..last];
    }
  }

  lemma TotalAppend(objects: seq<Source>, s: Source)
    ensures Total(objects + [s]) == Total(objects) + s.activeLeases
  {
    assert (objects + [s])[..|objects|] == objects;
  }

  // ------------------------------------------------------ lease accounting

  predicate Tracked(l: Lane, x: Lease) { x.key in l.sources && l.sources[x.key] == x.slot }

  /** Every reference is valid and no two keys share an object. */
  predicate Linked(l: Lane) {
    && (forall k | k in l.sources :: l.sources[k] < |l.objects|)
    && (forall i | 0 <= i < |l.leases| :: l.leases[i].slot < |l.objects|)
    && (forall k, k' | k in l.sources && k' in l.sources && l.sources[k] == l.sources[k'] :: k == k')
  }

  predicate Counted(l: Lane) {
    && l.concurrency == Count(l.leases, OUTSTANDING) == Total(l.objects)
    && (forall o: nat | o < |l.objects| :: l.objects[o].activeLeases == Count(l.leases, OpenOn(o)))
  }

  /** Only tracked objects are leased, and every leased object is tracked. */
  predicate Anchored(l: Lane) {
    && (forall o: nat | o < |l.objects| && l.objects[o].activeLeases != 0 :: o in l.sources.Values)
    && (forall i | 0 <= i < |l.leases| && !l.leases[i].released :: Tracked(l, l.leases[i]))
  }

  predicate Accounted(l: Lane, capacity: nat, p: ClassPolicy) {
    Linked(l) && Counted(l) && Anchored(l) && |l.sources| <= capacity && l.concurrency <= p.concurrency
  }

  lemma SubsetIsSmaller(a: set<string>, b: set<string>)
    requires a <= b
    ensures |a| <= |b|
  {
    assert b == a + (b - a) && a !! (b - a);
  }

  /** A sweep forgets only idle sources, so never a leased one. */
  lemma SweepKeepsAccounts(l: Lane, capacity: nat, p: ClassPolicy, now: int)
    requires Accounted(l, capacity, p)
    ensures Accounted(Swept(l, now), capacity, p)
  {
    var l' := Swept(l, now);
    SubsetIsSmaller(l'.sources.Keys, l.sources.Keys);
    assert |l'.sources| == |l'.sources.Keys| && |l.sources| == |l.sources.Keys|;
    forall o: nat | o < |l.objects| && l.objects[o].activeLeases != 0
      ensures o in l'.sources.Values
    {
      var k :| k in l.sources && l.sources[k] == o;
      assert k in l'.sources;
    }
    forall i | 0 <= i < |l.leases| && !l.leases[i].released
      ensures Tracked(l', l.leases[i])
    {
      assert Tracked(l, l.leases[i]);
      CountIsPositive(l.leases, i, OpenOn(l.leases[i].slot));
    }
  }

  lemma ChargeKeepsAccounts(l: Lane, capacity: nat, p: ClassPolicy, key: string, tat: int)
    requires Accounted(l, capacity, p)
    ensures Accounted(Charged(l, key, tat), capacity, p)
  {
    if key in l.sources {
      TotalUpdate(l.objects, l.sources[key], l.objects[l.sources[key]].(tatMs := tat));
    }
  }

  lemma GrantKeepsLinks(l: Lane, key: string, st: int, gt: int, now: int)
    requires Linked(l)
    ensures Linked(Granted(l, key, st, gt, now))
  {
  }

  lemma GrantKeepsTotal(l: Lane, key: string, st: int, gt: int, now: int)
    requires Linked(l)
    ensures Total(Granted(l, key, st, gt, now).objects) == Total(l.objects) + 1
  {
    var s := Source(StateFor(l, key, now).activeLeases + 1, st, now);
    if key in l.sources {
      TotalUpdate(l.objects, l.sources[key], s);
    } else {
      TotalAppend(l.objects, s);
    }
  }

  lemma GrantCountsObject(l: Lane, key: string, st: int, gt: int, now: int, q: nat)
    requires Linked(l) && q < |Granted(l, key, st, gt, now).objects|
    requires q < |l.objects| ==> l.objects[q].activeLeases == Count(l.leases, OpenOn(q))
    ensures Granted(l, key, st, gt, now).objects[q].activeLeases == Count(Granted(l, key, st, gt, now).leases, OpenOn(q))
  {
    CountAppend(l.leases, Lease(key, ObjectFor(l, key), now, false), OpenOn(q));
    if q == |l.objects| {
      NothingOpenOnNewObject(l.leases, q);
    }
  }

  lemma GrantKeepsCounts(l: Lane, key: string, st: int, gt: int, now: int)
    requires Linked(l) && Counted(l)
    ensures Linked(Granted(l, key, st, gt, now)) && Counted(Granted(l, key, st, gt, now))
  {
    GrantKeepsLinks(l, key, st, gt, now);
    GrantKeepsTotal(l, key, st, gt, now);
    CountAppend(l.leases, Lease(key, ObjectFor(l, key), now, false), OUTSTANDING);
    forall q: nat | q < |Granted(l, key, st, gt, now).objects|
      ensures Granted(l, key, st, gt, now).objects[q].activeLeases == Count(Granted(l, key, st, gt, now).leases, OpenOn(q))
    {
      GrantCountsObject(l, key, st, gt, now, q);
    }
  }

  lemma GrantKeepsAnchors(l: Lane, key: string, st: int, gt: int, now: int)
    requires Linked(l) && Anchored(l)
    ensures Anchored(Granted(l, key, st, gt, now))
  {
    var l' := Granted(l, key, st, gt, now);
    forall q: nat | q < |l'.objects| && l'.objects[q].activeLeases != 0
      ensures q in l'.sources.Values
    {
      if q == ObjectFor(l, key) {
        assert l'.sources[key] == q;
      } else {
        var k :| k in l.sources && l.sources[k] == q;
        assert l'.sources[k] == q;
      }
    }
    forall i | 0 <= i < |l'.leases| && !l'.leases[i].released
      ensures Tracked(l', l'.leases[i])
    {
      assert i < |l.leases| ==> Tracked(l, l.leases[i]);
    }
  }

  /** Releasing an outstanding lease never meets the clamps. */
  lemma ReleaseKeepsAccounts(l: Lane, capacity: nat, p: ClassPolicy, i: nat)
    requires Accounted(l, capacity, p)
    ensures Accounted(Released(l, i), capacity, p)
    ensures i < |l.leases| && !l.leases[i].released ==>
              && Released(l, i).concurrency == l.concurrency - 1
              && Released(l, i).objects[l.leases[i].slot].activeLeases == l.objects[l.leases[i].slot].activeLeases - 1
  {
    if i < |l.leases| && !l.leases[i].released {
      var x := l.leases[i];
      var l' := Released(l, i);
      CountIsPositive(l.leases, i, OUTSTANDING);
      CountIsPositive(l.leases, i, OpenOn(x.slot));
      CountUpdate(l.leases, i, x.(released := true), OUTSTANDING);
      TotalUpdate(l.objects, x.slot, l'.objects[x.slot]);
      forall o: nat | o < |l.objects|
        ensures l'.objects[o].activeLeases == Count(l'.leases, OpenOn(o))
      {
        CountUpdate(l.leases, i, x.(released := true), OpenOn(o));
      }
      forall j | 0 <= j < |l'.leases| && !l'.leases[j].released
        ensures Tracked(l', l'.leases[j])
      {
        assert Tracked(l, l.leases[j]);
      }
    }
  }

  // ------------------------------------------------------------ rate bound

  /** The theoretical arrival time is ahead of `since` by one interval per
      admission since then. */
  ghost predicate Ahead(tatMs: int, leases: seq<Lease>, key: Option<string>, p: RatePolicy) {
    forall since: int :: Count(leases, Since(key, since)) > 0 ==>
      since + Count(leases, Since(key, since)) * p.intervalMs <= tatMs
  }

  ghost predicate Limited(leases: seq<Lease>, key: Option<string>, p: RatePolicy) {
    forall since: int, until: int | since <= until ::
      Count(leases, Within(key, since, until)) * p.intervalMs <= p.burst * p.intervalMs + (until - since)
  }

  /** The bucket a key has, or would have: an evicted or unseen source is worth
      the gate clock. */
  function Effective(l: Lane, key: string, clockMs: int): int {
    if key in l.sources then Deref(l.objects, l.sources[key]).tatMs else clockMs
  }

  ghost predicate SourceMetered(l: Lane, key: string, p: RatePolicy, clockMs: int) {
    Ahead(Effective(l, key, clockMs), l.leases, Some(key), p) && Limited(l.leases, Some(key), p)
  }

  ghost predicate Metered(l: Lane, p: ClassPolicy, clockMs: int) {
    && Ahead(l.globalTatMs, l.leases, None, p.global) && Limited(l.leases, None, p.global)
    && forall key :: SourceMetered(l, key, p.source, clockMs)
  }

  lemma AdmissionFitsInterval(tat: int, n: nat, m: nat, p: RatePolicy, since: int, at: int)
    requires p.intervalMs > 0 && p.burst > 0 && m <= n && since <= at
    requires n > 0 ==> since + n * p.intervalMs <= tat
    requires at >= EarliestAllowed(tat, p)
    ensures (m + 1) * p.intervalMs <= p.burst * p.intervalMs + (at - since)
  {
    var t := p.intervalMs;
    assert (m + 1) * t == m * t + t;
    assert (p.burst - 1) * t == p.burst * t - t;
    if n > 0 {
      assert m * t <= n * t;
    } else {
      assert m == 0 && t <= p.burst * t;
    }
  }

  /** One conforming admission keeps a bucket ahead and its admissions limited. */
  lemma AdmissionIsMetered(tat: int, leases: seq<Lease>, x: Lease, key: Option<string>, p: RatePolicy)
    requires p.intervalMs > 0 && p.burst > 0
    requires Ahead(tat, leases, key, p) && Limited(leases, key, p)
    requires key.None? || key.value == x.key
    requires x.at >= EarliestAllowed(tat, p)
    ensures Ahead(Max(tat, x.at) + p.intervalMs, leases + [x], key, p)
    ensures Limited(leases + [x], key, p)
  {
    forall since: int
      ensures Count(leases + [x], Since(key, since)) > 0 ==>
                since + Count(leases + [x], Since(key, since)) * p.intervalMs <= Max(tat, x.at) + p.intervalMs
    {
      CountAppend(leases, x, Since(key, since));
      var n := Count(leases, Since(key, since));
      assert (n + 1) * p.intervalMs == n * p.intervalMs + p.intervalMs;
    }
    forall since: int, until: int | since <= until
      ensures Count(leases + [x], Within(key, since, until)) * p.intervalMs <= p.burst * p.intervalMs + (until - since)
    {
      CountAppend(leases, x, Within(key, since, until));
      WithinIsFewer(leases, key, since, until);
      if since <= x.at <= until {
        AdmissionFitsInterval(tat, Count(leases, Since(key, since)), Count(leases, Within(key, since, until)), p, since, x.at);
      }
    }
  }

  /** Admissions of other sources leave a source's meter alone. */
  lemma ForeignAdmission(tat: int, leases: seq<Lease>, x: Lease, key: string, p: RatePolicy)
    requires Ahead(tat, leases, Some(key), p) && Limited(leases, Some(key), p) && key != x.key
    ensures Ahead(tat, leases + [x], Some(key), p) && Limited(leases + [x], Some(key), p)
  {
    forall f: Filter | f.key == Some(key)
      ensures Count(leases + [x], f) == Count(leases, f)
    {
      CountAppend(leases, x, f);
    }
  }

  /** Buckets that only moved forward keep the meters: the clock ran on, idle
      buckets were swept, or a source was charged. */
  lemma LaterBucketsKeepMeters(l: Lane, l': Lane, p: ClassPolicy, clockMs: int, now: int)
    requires Metered(l, p, clockMs) && l'.leases == l.leases && l'.globalTatMs == l.globalTatMs
    requires forall key :: Effective(l, key, clockMs) <= Effective(l', key, now)
    ensures Metered(l', p, now)
  {
    forall key
      ensures SourceMetered(l', key, p.source, now)
    {
      assert SourceMetered(l, key, p.source, clockMs);
    }
  }

  lemma SweepKeepsMeters(l: Lane, p: ClassPolicy, clockMs: int, now: int)
    requires Metered(l, p, clockMs) && clockMs <= now
    ensures Metered(Swept(l, now), p, now)
  {
    LaterBucketsKeepMeters(l, Swept(l, now), p, clockMs, now);
  }

  lemma ChargeKeepsMeters(l: Lane, p: ClassPolicy, key: string, tat: int, now: int)
    requires Linked(l) && Metered(l, p, now) && (key in l.sources ==> l.objects[l.sources[key]].tatMs <= tat)
    ensures Metered(Charged(l, key, tat), p, now)
  {
    LaterBucketsKeepMeters(l, Charged(l, key, tat), p, now, now);
  }

  lemma FreshBucketConforms(now: int, p: RatePolicy)
    requires p.burst > 0 && p.intervalMs > 0
    ensures EarliestAllowed(now, p) <= now
  {
    assert (p.burst - 1) * p.intervalMs >= 0;
  }

  lemma GrantKeepsMeters(l: Lane, p: ClassPolicy, key: string, now: int)
    requires Accepted(p) && now >= 0 && Linked(l) && Metered(l, p, now)
    requires PreviewGcra(StateFor(l, key, now).tatMs, p.source, now).Conforming?
    requires PreviewGcra(l.globalTatMs, p.global, now).Conforming?
    ensures Metered(
              Granted(l, key, PreviewGcra(StateFor(l, key, now).tatMs, p.source, now).nextTatMs,
                      PreviewGcra(l.globalTatMs, p.global, now).nextTatMs, now), p, now)
  {
    var x := Lease(key, ObjectFor(l, key), now, false);
    var l' := Granted(l, key, PreviewGcra(StateFor(l, key, now).tatMs, p.source, now).nextTatMs,
                      PreviewGcra(l.globalTatMs, p.global, now).nextTatMs, now);
    AdmissionIsMetered(l.globalTatMs, l.leases, x, None, p.global);
    forall k
      ensures SourceMetered(l', k, p.source, now)
    {
      assert SourceMetered(l, k, p.source, now);
      if k == key {
        FreshBucketConforms(now, p.source);
        AdmissionIsMetered(Effective(l, key, now), l.leases, x, Some(key), p.source);
      } else {
        ForeignAdmission(Effective(l, k, now), l.leases, x, k, p.source);
        assert Effective(l', k, now) == Effective(l, k, now);
      }
    }
  }

  lemma ReleaseKeepsMeters(l: Lane, p: ClassPolicy, clockMs: int, i: nat)
    requires Metered(l, p, clockMs)
    ensures Metered(Released(l, i), p, clockMs)
  {
    if i < |l.leases| && !l.leases[i].released {
      var l' := Released(l, i);
      forall f: Filter | !f.onlyOpen
        ensures Count(l'.leases, f) == Count(l.leases, f)
      {
        CountUpdate(l.leases, i, l.leases[i].(released := true), f);
      }
      forall key
        ensures SourceMetered(l', key, p.source, clockMs)
      {
        assert SourceMetered(l, key, p.source, clockMs);
        assert Effective(l', key, clockMs) == Effective(l, key, clockMs);
      }
    }
  }

  // ------------------------------------------------------------- every run

  ghost predicate LaneKept(l: Lane, capacity: nat, p: ClassPolicy, clockMs: int) {
    Accounted(l, capacity, p) && Metered(l, p, clockMs)
  }

  ghost predicate Kept(g: Gate, ps: Policies) {
    g.clockMs >= 0 && forall c: RequestClass :: LaneKept(LaneOf(g, c), Capacity(c), PolicyOf(ps, c), g.clockMs)
  }

  lemma AdmitKeepsLane(l: Lane, capacity: nat, p: ClassPolicy, key: string, now: int)
    requires Accepted(p) && now >= 0 && LaneKept(l, capacity, p, now)
    ensures LaneKept(Admit(l, p, capacity, key, now).0, capacity, p, now)
  {
    var (l', decision) := Admit(l, p, capacity, key, now);
    if key in l.sources || |l.sources| < capacity {
      var preview := PreviewGcra(StateFor(l, key, now).tatMs, p.source, now);
      if decision.Allowed? {
        var globalTat := PreviewGcra(l.globalTatMs, p.global, now).nextTatMs;
        GrantKeepsCounts(l, key, preview.nextTatMs, globalTat, now);
        GrantKeepsAnchors(l, key, preview.nextTatMs, globalTat, now);
        GrantKeepsMeters(l, p, key, now);
      } else if preview.Conforming? {
        ChargeKeepsAccounts(l, capacity, p, key, preview.nextTatMs);
        ChargeKeepsMeters(l, p, key, preview.nextTatMs, now);
      }
    } else {
      OverflowKeepsLane(l, l', capacity, p, now);
    }
  }

  lemma OverflowKeepsLane(l: Lane, l': Lane, capacity: nat, p: ClassPolicy, now: int)
    requires LaneKept(l, capacity, p, now) && l' == l.(overflowTatMs := l'.overflowTatMs)
    ensures LaneKept(l', capacity, p, now)
  {
    LaterBucketsKeepMeters(l, l', p, now, now);
  }

  lemma WithLaneKeeps(g: Gate, ps: Policies, c: RequestClass, l: Lane, now: int)
    requires Kept(g, ps) && g.clockMs <= now && LaneKept(l, Capacity(c), PolicyOf(ps, c), now)
    ensures Kept(WithLane(g.(clockMs := now), c, l), ps)
  {
    forall d: RequestClass
      ensures LaneKept(LaneOf(WithLane(g.(clockMs := now), c, l), d), Capacity(d), PolicyOf(ps, d), now)
    {
      assert LaneKept(LaneOf(g, d), Capacity(d), PolicyOf(ps, d), g.clockMs);
      if d != c {
        LaterBucketsKeepMeters(LaneOf(g, d), LaneOf(g, d), PolicyOf(ps, d), g.clockMs, now);
      }
    }
  }

  lemma AcquireKeeps(g: Gate, ps: Policies, c: RequestClass, headers: Headers, observed: Option<real>)
    requires AllAccepted(ps) && Kept(g, ps)
    ensures Kept(Acquire(g, ps, c, headers, observed).0, ps)
  {
    if headers.From? && ReadClock(g.clockMs, observed).Some? {
      var now := ReadClock(g.clockMs, observed).value;
      var l := LaneOf(g, c);
      var p := PolicyOf(ps, c);
      assert LaneKept(l, Capacity(c), p, g.clockMs);
      SweepKeepsAccounts(l, Capacity(c), p, now);
      SweepKeepsMeters(l, p, g.clockMs, now);
      AdmitKeepsLane(Swept(l, now), Capacity(c), p, headers.key, now);
      WithLaneKeeps(g, ps, c, Admit(Swept(l, now), p, Capacity(c), headers.key, now).0, now);
    }
  }

  lemma ReleaseKeeps(g: Gate, ps: Policies, c: RequestClass, i: nat)
    requires Kept(g, ps)
    ensures Kept(WithLane(g, c, Released(LaneOf(g, c), i)), ps)
  {
    var l := LaneOf(g, c);
    assert LaneKept(l, Capacity(c), PolicyOf(ps, c), g.clockMs);
    ReleaseKeepsAccounts(l, Capacity(c), PolicyOf(ps, c), i);
    ReleaseKeepsMeters(l, PolicyOf(ps, c), g.clockMs, i);
    WithLaneKeeps(g, ps, c, Released(l, i), g.clockMs);
  }

  lemma {:induction false} EveryRunIsKept(ps: Policies, calls: seq<Call>)
    requires AllAccepted(ps)
    ensures Kept(RunGate(ps, calls), ps)
  {
    if calls != [] {
      var g := RunGate(ps, calls[..|calls| - 1]);
      EveryRunIsKept(ps, calls[..|calls| - 1]);
      match calls[|calls| - 1]
      case AcquireCall(c, headers, observed) => AcquireKeeps(g, ps, c, headers, observed);
      case ReleaseCall(c, i) => ReleaseKeeps(g, ps, c, i);
    }
  }

  lemma RunKeepsLane(ps: Policies, calls: seq<Call>, c: RequestClass)
    requires AllAccepted(ps)
    ensures LaneKept(LaneOf(RunGate(ps, calls), c), Capacity(c), PolicyOf(ps, c), RunGate(ps, calls).clockMs)
  {
    EveryRunIsKept(ps, calls);
  }

  lemma DivideBound(n: int, burst: int, interval: int, length: int)
    requires interval > 0 && length >= 0 && n * interval <= burst * interval + length
    ensures n <= burst + length / interval
  {
    var q := length / interval;
    assert (n - burst) * interval <= length by {
      assert (n - burst) * interval == n * interval - burst * interval;
    }
    assert length < q * interval + interval;
    QuotientBounds(n - burst, q, interval);
  }

  lemma QuotientBounds(a: int, q: int, interval: int)
    requires interval > 0 && a * interval < q * interval + interval
    ensures a <= q
  {
    var d := a - q - 1;
    assert d * interval == a * interval - q * interval - interval;
    assert d >= 0 ==> d * interval >= 0;
  }

  /** The rate bound: in any interval of the gate clock, over every run, a
      class, or one source of it across eviction and re-creation of its bucket,
      is admitted at most burst + length / interval times. */
  lemma EveryRunIsRateBounded(ps: Policies, calls: seq<Call>, c: RequestClass, key: Option<string>, since: int, until: int)
    requires AllAccepted(ps) && since <= until
    ensures var p := if key.None? then PolicyOf(ps, c).global else PolicyOf(ps, c).source;
            Count(LaneOf(RunGate(ps, calls), c).leases, Within(key, since, until)) <= p.burst + (until - since) / p.intervalMs
  {
    RunKeepsLane(ps, calls, c);
    var l := LaneOf(RunGate(ps, calls), c);
    var p := if key.None? then PolicyOf(ps, c).global else PolicyOf(ps, c).source;
    assert key.Some? ==> SourceMetered(l, key.value, p, RunGate(ps, calls).clockMs);
    DivideBound(Count(l.leases, Within(key, since, until)), p.burst, p.intervalMs, until - since);
  }

  /** The active leases of the sources currently in the map. */
  function TrackedActive(l: Lane, upTo: nat): int
    requires upTo <= |l.objects|
  {
    if upTo == 0 then 0
    else TrackedActive(l, upTo - 1) + if upTo - 1 in l.sources.Values then l.objects[upTo - 1].activeLeases else 0
  }

  lemma {:induction false} UntrackedAreIdle(l: Lane, upTo: nat)
    requires upTo <= |l.objects| && Anchored(l)
    ensures TrackedActive(l, upTo) == Total(l.objects[..upTo])
  {
    if upTo > 0 {
      UntrackedAreIdle(l, upTo - 1);
      assert l.objects[..upTo][..upTo - 1] == l.objects[..upTo - 1];
    }
  }

  /** Lease accounting over every run: concurrency equals outstanding leases,
      equals the active leases of the tracked sources, and stays within policy;
      the map stays within capacity. */
  lemma EveryRunAccountsForLeases(ps: Policies, calls: seq<Call>, c: RequestClass)
    requires AllAccepted(ps)
    ensures var l := LaneOf(RunGate(ps, calls), c);
            && l.concurrency == Count(l.leases, OUTSTANDING) == TrackedActive(l, |l.objects|)
            && 0 <= l.concurrency <= PolicyOf(ps, c).concurrency
            && |l.sources| <= Capacity(c)
  {
    RunKeepsLane(ps, calls, c);
    var l := LaneOf(RunGate(ps, calls), c);
    UntrackedAreIdle(l, |l.objects|);
    assert l.objects[..|l.objects|] == l.objects;
  }

  /** After every run, an outstanding lease still has its own source object
      tracked under its key, so it was never swept, and both counters its
      release will decrement are above zero, so the clamps never fire. */
  lemma EveryOutstandingLeaseIsTracked(ps: Policies, calls: seq<Call>, c: RequestClass, i: nat)
    requires AllAccepted(ps)
    requires i < |LaneOf(RunGate(ps, calls), c).leases| && !LaneOf(RunGate(ps, calls), c).leases[i].released
    ensures var l := LaneOf(RunGate(ps, calls), c);
            Tracked(l, l.leases[i]) && l.concurrency > 0 && Deref(l.objects, l.leases[i].slot).activeLeases > 0
  {
    RunKeepsLane(ps, calls, c);
    var l := LaneOf(RunGate(ps, calls), c);
    CountIsPositive(l.leases, i, OUTSTANDING);
    CountIsPositive(l.leases, i, OpenOn(l.leases[i].slot));
  }

  // ------------------------------------------ recent sources are remembered

  /** A source admitted less than the idle time ago is still tracked, and a
      tracked source was last seen no earlier than any of its admissions. */
  predicate Remembers(l: Lane, clockMs: int) {
    forall i | 0 <= i < |l.leases| ::
      && l.leases[i].slot < |l.objects|
      && (Tracked(l, l.leases[i]) ==> l.leases[i].at <= l.objects[l.leases[i].slot].lastSeenMs)
      && (clockMs - l.leases[i].at < SOURCE_IDLE_MS ==> Tracked(l, l.leases[i]))
  }

  lemma SweepRemembers(l: Lane, clockMs: int, now: int)
    requires Remembers(l, clockMs) && clockMs <= now
    ensures Remembers(Swept(l, now), now)
  {
    var l' := Swept(l, now);
    forall i | 0 <= i < |l.leases|
      ensures now - l.leases[i].at < SOURCE_IDLE_MS ==> Tracked(l', l.leases[i])
      ensures Tracked(l', l.leases[i]) ==> Tracked(l, l.leases[i])
    {
      var x := l.leases[i];
      assert now - x.at < SOURCE_IDLE_MS ==> Tracked(l, x) && !Idle(Deref(l.objects, l.sources[x.key]), now);
    }
  }

  lemma GrantRemembers(l: Lane, key: string, st: int, gt: int, now: int)
    requires Linked(l) && Remembers(l, now) && forall i | 0 <= i < |l.leases| :: l.leases[i].at <= now
    ensures Remembers(Granted(l, key, st, gt, now), now)
  {
    var l' := Granted(l, key, st, gt, now);
    forall i | 0 <= i < |l.leases|
      ensures Tracked(l, l.leases[i]) ==> Tracked(l', l.leases[i])
      ensures Tracked(l', l.leases[i]) ==> Tracked(l, l.leases[i])
    {
    }
  }

  predicate Mindful(l: Lane, clockMs: int) {
    Remembers(l, clockMs) && forall i | 0 <= i < |l.leases| :: l.leases[i].at <= clockMs
  }

  lemma AdmitRemembers(l: Lane, p: ClassPolicy, capacity: nat, key: string, now: int)
    requires Linked(l) && Mindful(l, now)
    ensures Mindful(Admit(l, p, capacity, key, now).0, now)
  {
    var (l', decision) := Admit(l, p, capacity, key, now);
    if decision.Allowed? {
      GrantRemembers(l, key, PreviewGcra(StateFor(l, key, now).tatMs, p.source, now).nextTatMs,
                     PreviewGcra(l.globalTatMs, p.global, now).nextTatMs, now);
    } else {
      assert l'.leases == l.leases && l'.sources == l.sources && |l'.objects| == |l.objects|;
      assert forall o | 0 <= o < |l.objects| :: l'.objects[o].lastSeenMs == l.objects[o].lastSeenMs;
    }
  }

  lemma SweepKeepsLinks(l: Lane, now: int)
    requires Linked(l)
    ensures Linked(Swept(l, now))
  {
  }

  lemma SweepThenAdmitRemembers(l: Lane, p: ClassPolicy, capacity: nat, key: string, clockMs: int, now: int)
    requires Linked(l) && Mindful(l, clockMs) && clockMs <= now
    ensures Mindful(Admit(Swept(l, now), p, capacity, key, now).0, now)
  {
    SweepRemembers(l, clockMs, now);
    SweepKeepsLinks(l, now);
    AdmitRemembers(Swept(l, now), p, capacity, key, now);
  }

  lemma LaterClockRemembers(l: Lane, clockMs: int, now: int)
    requires Mindful(l, clockMs) && clockMs <= now
    ensures Mindful(l, now)
  {
  }

  lemma AcquireRemembers(g: Gate, ps: Policies, c: RequestClass, headers: Headers, observed: Option<real>, d: RequestClass)
    requires Mindful(LaneOf(g, d), g.clockMs) && Linked(LaneOf(g, d))
    ensures var g' := Acquire(g, ps, c, headers, observed).0;
            Mindful(LaneOf(g', d), g'.clockMs)
  {
    if headers.From? && ReadClock(g.clockMs, observed).Some? {
      var now := ReadClock(g.clockMs, observed).value;
      if d == c {
        SweepThenAdmitRemembers(LaneOf(g, c), PolicyOf(ps, c), Capacity(c), headers.key, g.clockMs, now);
      } else {
        LaterClockRemembers(LaneOf(g, d), g.clockMs, now);
      }
    }
  }

  lemma ReleaseRemembers(l: Lane, i: nat, clockMs: int)
    requires Mindful(l, clockMs)
    ensures Mindful(Released(l, i), clockMs)
  {
    var l' := Released(l, i);
    forall j | 0 <= j < |l.leases|
      ensures Tracked(l', l'.leases[j]) == Tracked(l, l.leases[j])
    {
    }
  }

  lemma CallRemembers(g: Gate, ps: Policies, call: Call, c: RequestClass)
    requires Mindful(LaneOf(g, c), g.clockMs) && Linked(LaneOf(g, c))
    ensures Mindful(LaneOf(Perform(g, ps, call), c), Perform(g, ps, call).clockMs)
  {
    match call
    case AcquireCall(d, headers, observed) => AcquireRemembers(g, ps, d, headers, observed, c);
    case ReleaseCall(d, i) => ReleaseRemembers(LaneOf(g, c), i, g.clockMs);
  }

  /** Over every run a source that was admitted less than five minutes of gate
      clock ago still has its bucket, so its rate history is not forgotten. */
  lemma {:induction false} EveryRunRemembersRecentSources(ps: Policies, calls: seq<Call>, c: RequestClass)
    requires AllAccepted(ps)
    ensures Mindful(LaneOf(RunGate(ps, calls), c), RunGate(ps, calls).clockMs)
  {
    if calls != [] {
      EveryRunRemembersRecentSources(ps, calls[..|calls| - 1], c);
      RunKeepsLane(ps, calls[..|calls| - 1], c);
      CallRemembers(RunGate(ps, calls[..|calls| - 1]), ps, calls[|calls| - 1], c);
    }
  }

  // ------------------------------------------------- the bound is attained

  /** The lane after `n` admissions of one source at one instant. */
  predicate Bursting(l: Lane, p: ClassPolicy, key: string, now: int, n: nat) {
    && l.concurrency == n && |l.leases| == n
    && (n > 0 ==> key in l.sources && Deref(l.objects, l.sources[key]).tatMs == now + n * p.source.intervalMs
                  && l.globalTatMs == now + n * p.global.intervalMs && l.sources[key] < |l.objects|)
    && (n == 0 ==> l.sources == map[] && l.globalTatMs <= now)
  }

  lemma WithinBurst(now: int, n: nat, p: RatePolicy)
    requires n < p.burst && p.intervalMs > 0
    ensures EarliestAllowed(now + n * p.intervalMs, p) <= now
  {
    assert n * p.intervalMs <= (p.burst - 1) * p.intervalMs;
  }

  lemma BurstGrows(l: Lane, p: ClassPolicy, capacity: nat, key: string, now: int, n: nat)
    requires Accepted(p) && now >= 0 && capacity > 0 && Bursting(l, p, key, now, n)
    requires n < p.source.burst && n < p.global.burst && n < p.concurrency
    ensures var (l', decision) := Admit(l, p, capacity, key, now);
            decision == Allowed(n) && Bursting(l', p, key, now, n + 1)
  {
    WithinBurst(now, n, p.source);
    WithinBurst(now, n, p.global);
    WithinBurst(now, 0, p.source);
    WithinBurst(now, 0, p.global);
    assert (n + 1) * p.source.intervalMs == n * p.source.intervalMs + p.source.intervalMs;
    assert (n + 1) * p.global.intervalMs == n * p.global.intervalMs + p.global.intervalMs;
    if n == 0 {
      assert EarliestAllowed(0, p.source) <= now && EarliestAllowed(l.globalTatMs, p.global) <= now;
    }
  }

  function BurstCall(c: RequestClass, key: string, at: nat): Call { AcquireCall(c, From(key), Some(at as real)) }

  predicate BurstingGate(g: Gate, ps: Policies, c: RequestClass, key: string, at: nat, n: nat) {
    && g.clockMs <= at && Bursting(LaneOf(g, c), PolicyOf(ps, c), key, at, n)
    && LaneOf(g, c).lastSweepMs == (if n == 0 then None else Some(at))
  }

  lemma BurstCallIsAdmitted(g: Gate, ps: Policies, c: RequestClass, key: string, at: nat, n: nat)
    requires AllAccepted(ps) && BurstingGate(g, ps, c, key, at, n)
    requires n < PolicyOf(ps, c).source.burst && n < PolicyOf(ps, c).global.burst && n < PolicyOf(ps, c).concurrency
    ensures BurstingGate(Perform(g, ps, BurstCall(c, key, at)), ps, c, key, at, n + 1)
  {
    var l := LaneOf(g, c);
    assert Swept(l, at).sources == l.sources;
    assert ReadClock(g.clockMs, Some(at as real)) == Some(at);
    BurstGrows(Swept(l, at), PolicyOf(ps, c), Capacity(c), key, at, n);
  }

  /** The bound is attained: on a fresh gate one source is admitted, at a single
      instant, as many times as its burst, the class burst and the concurrency
      allow. */
  lemma {:induction false} BurstIsAdmitted(ps: Policies, c: RequestClass, key: string, at: nat, n: nat)
    requires AllAccepted(ps)
    requires n <= PolicyOf(ps, c).source.burst && n <= PolicyOf(ps, c).global.burst && n <= PolicyOf(ps, c).concurrency
    ensures BurstingGate(RunGate(ps, seq(n, _ => BurstCall(c, key, at))), ps, c, key, at, n)
    ensures |LaneOf(RunGate(ps, seq(n, _ => BurstCall(c, key, at))), c).leases| == n
  {
    if n > 0 {
      var calls := seq(n, _ => BurstCall(c, key, at));
      assert calls[..n - 1] == seq(n - 1, _ => BurstCall(c, key, at)) && calls[n - 1] == BurstCall(c, key, at);
      BurstIsAdmitted(ps, c, key, at, n - 1);
      BurstCallIsAdmitted(RunGate(ps, calls[..n - 1]), ps, c, key, at, n - 1);
    }
  }

  // ------------------------------------------- what a request is told, exactly

  /** The bucket would admit now: it is at most a burst ahead. */
  predicate Ready(tatMs: int, p: RatePolicy, nowMs: int) { tatMs <= nowMs + (p.burst - 1) * p.intervalMs }

  /** Which request is admitted and which limit a refusal names: a full map for a
      newcomer, then its own rate, then the class rate, then concurrency. */
  lemma AdmissionIsDecidedBy(l: Lane, p: ClassPolicy, capacity: nat, key: string, now: int)
    ensures var decision := Admit(l, p, capacity, key, now).1;
            var full := key !in l.sources && |l.sources| >= capacity;
            var ownRate := Ready(if key in l.sources then Deref(l.objects, l.sources[key]).tatMs else 0, p.source, now);
            var classRate := Ready(l.globalTatMs, p.global, now);
            && (decision.Allowed? <==> !full && ownRate && classRate && l.concurrency < p.concurrency)
            && (decision.Denied? ==>
                  && decision.status == 429 && decision.retryAfterSeconds.Some? && decision.retryAfterSeconds.value >= 1
                  && decision.reason == (if full then SourceCapacityExceeded else if !ownRate then SourceRateLimited
                                         else if !classRate then GlobalRateLimited else ConcurrencyLimited))
  {
  }

  /** A refused request takes no lease, no place in the map and nothing from the
      class bucket; but a tracked source pays for it from its own bucket as soon as
      that one would admit. */
  lemma RefusalCharges(l: Lane, p: ClassPolicy, capacity: nat, key: string, now: int)
    requires Linked(l) && Admit(l, p, capacity, key, now).1.Denied?
    ensures var l' := Admit(l, p, capacity, key, now).0;
            && l'.leases == l.leases && l'.sources == l.sources && l'.globalTatMs == l.globalTatMs && l'.concurrency == l.concurrency
            && (forall k | k in l.sources ::
                  l'.objects[l'.sources[k]] == l.objects[l.sources[k]].(
                    tatMs := if k == key && Ready(l.objects[l.sources[k]].tatMs, p.source, now)
                             then Max(l.objects[l.sources[k]].tatMs, now) + p.source.intervalMs
                             else l.objects[l.sources[k]].tatMs))
  {
  }

  /** An admission is logged, charged to both buckets and leased. */
  lemma AdmissionCharges(l: Lane, p: ClassPolicy, capacity: nat, key: string, now: int)
    requires Linked(l) && Admit(l, p, capacity, key, now).1.Allowed?
    ensures var l' := Admit(l, p, capacity, key, now).0;
            var tat := if key in l.sources then l.objects[l.sources[key]].tatMs else 0;
            && Admit(l, p, capacity, key, now).1 == Allowed(|l.leases|)
            && |l'.leases| == |l.leases| + 1 && l'.leases[|l.leases|].key == key && l'.leases[|l.leases|].at == now
            && !l'.leases[|l.leases|].released && Tracked(l', l'.leases[|l.leases|])
            && l'.globalTatMs == Max(l.globalTatMs, now) + p.global.intervalMs
            && Deref(l'.objects, l'.sources[key]).tatMs == Max(tat, now) + p.source.intervalMs
            && Deref(l'.objects, l'.sources[key]).lastSeenMs == now && l'.concurrency == l.concurrency + 1
  {
  }

  /** A due sweep forgets exactly the sources that hold no lease, were not admitted
      for five minutes and whose bucket has run out; an early one forgets nothing. */
  lemma SweepForgetsExactlyIdle(l: Lane, now: int, k: string)
    requires Linked(l) && k in l.sources
    ensures var s := l.objects[l.sources[k]];
            var due := l.lastSweepMs.None? || l.lastSweepMs.value + 60_000 <= now;
            k !in Swept(l, now).sources <==>
              due && s.activeLeases == 0 && s.lastSeenMs + 300_000 <= now && s.tatMs <= now
    ensures l.lastSweepMs.None? || l.lastSweepMs.value + 60_000 <= now ==> Swept(l, now).lastSweepMs == Some(now)
  {
  }

  /** The least number of whole seconds, at least one, that covers a wait. */
  lemma SecondsCover(waitMs: int)
    ensures var s := Max(1, CeilDiv(waitMs, 1_000));
            s >= 1 && 1_000 * s >= waitMs && (s > 1 ==> 1_000 * (s - 1) < waitMs)
  {
  }

  lemma ReadyIffEarliest(tatMs: int, p: RatePolicy, nowMs: int)
    ensures Ready(tatMs, p, nowMs) <==> EarliestAllowed(tatMs, p) <= nowMs
  {
  }

  /** The advice is the least that covers both waits. */
  predicate Advises(l: Lane, p: ClassPolicy, now: int, seconds: int) {
    && seconds >= 1
    && l.lastSweepMs.Some? && l.lastSweepMs.value + SWEEP_INTERVAL_MS <= now + 1_000 * seconds
    && EarliestAllowed(l.overflowTatMs, p.global) <= now + 1_000 * seconds
    && (seconds > 1 ==>
          || l.lastSweepMs.value + SWEEP_INTERVAL_MS > now + 1_000 * (seconds - 1)
          || EarliestAllowed(l.overflowTatMs, p.global) > now + 1_000 * (seconds - 1))
  }

  /** What a newcomer to a full map is advised: to come back when the next sweep is
      due and when the refused newcomers before it, metered like admissions, have
      cleared; each refusal that the meter passes is charged to it. */
  lemma CapacityRefusalAdvises(l: Lane, p: ClassPolicy, capacity: nat, key: string, now: int)
    requires key !in l.sources && |l.sources| >= capacity && l.lastSweepMs.Some?
    ensures var (l', decision) := Admit(l, p, capacity, key, now);
            && decision.Denied? && decision.reason == SourceCapacityExceeded && decision.retryAfterSeconds.Some?
            && Advises(l, p, now, decision.retryAfterSeconds.value)
            && l'.overflowTatMs == (if Ready(l.overflowTatMs, p.global, now) then Max(l.overflowTatMs, now) + p.global.intervalMs
                                    else l.overflowTatMs)
  {
    ReadyIffEarliest(l.overflowTatMs, p.global, now);
    SecondsCover(l.lastSweepMs.value + SWEEP_INTERVAL_MS - now);
    SecondsCover(EarliestAllowed(l.overflowTatMs, p.global) - now);
  }
}
