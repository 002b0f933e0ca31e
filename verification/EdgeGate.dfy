/** The admission gate as it runs: mutable counters, buckets, maps and clock,
    refining the specification functions of EdgeAdmission. */
module EdgeGate {
  import opened Prelude
  import opened EdgeAdmission

  /** What the gate keeps for one request class, updated in place. */
  class ClassLane {
    var globalTatMs: int
    var overflowTatMs: int
    var sources: map<string, nat>
    var objects: seq<Source>
    var lastSweepMs: Option<int>
    var concurrency: int
    var leases: seq<Lease>

    constructor ()
      ensures Contents() == EMPTY_LANE
    {
      globalTatMs, overflowTatMs, sources, objects := 0, 0, map[], [];
      lastSweepMs, concurrency, leases := None, 0, [];
    }

    function Contents(): Lane
      reads this
    {
      Lane(globalTatMs, overflowTatMs, sources, objects, lastSweepMs, concurrency, leases)
    }

    /** Deletes the idle sources one by one, at most once per sweep interval. */
    method Sweep(nowMs: int)
      modifies this
      ensures Contents() == Swept(old(Contents()), nowMs)
    {
      if lastSweepMs.Some? && nowMs - lastSweepMs.value < SWEEP_INTERVAL_MS {
        return;
      }
      var todo := sources.Keys;
      while todo != {}
        invariant todo <= old(sources).Keys
        invariant Contents() == old(Contents()).(sources := sources)
        invariant forall k :: k in sources <==>
                                k in old(sources) && (k in todo || !Idle(Deref(objects, old(sources)[k]), nowMs))
        invariant forall k | k in sources :: sources[k] == old(sources)[k]
        decreases todo
      {
        var k :| k in todo;
        if Idle(Deref(objects, sources[k]), nowMs) {
          sources := sources - {k};
        }
        todo := todo - {k};
      }
      lastSweepMs := Some(nowMs);
      assert sources == Swept(old(Contents()), nowMs).sources;
    }

    /** Everything after the sweep: capacity, source rate, shared rate,
        concurrency, and on success the updates in the order of the source. */
    method Admit(p: ClassPolicy, capacity: nat, key: string, nowMs: int) returns (decision: Decision)
      modifies this
      ensures (Contents(), decision) == EdgeAdmission.Admit(old(Contents()), p, capacity, key, nowMs)
    {
      var isNew := key !in sources;
      var slot := if isNew then |objects| else sources[key];
      var state := if isNew then Source(0, 0, nowMs) else Deref(objects, slot);
      if isNew && |sources| >= capacity {
        var overflow := PreviewGcra(overflowTatMs, p.global, nowMs);
        if overflow.Conforming? {
          overflowTatMs := overflow.nextTatMs;
        }
        var wait := CapacityRetryAfterSeconds(Contents(), nowMs);
        return Denied(SourceCapacityExceeded, 429, Some(Max(wait, if overflow.Conforming? then 1 else overflow.retryAfterSeconds)));
      }
      var source := PreviewGcra(state.tatMs, p.source, nowMs);
      if source.TooEarly? {
        return Denied(SourceRateLimited, 429, Some(source.retryAfterSeconds));
      }
      state := state.(tatMs := source.nextTatMs);
      if !isNew {
        objects := Assign(objects, slot, state);
      }
      var shared := PreviewGcra(globalTatMs, p.global, nowMs);
      if shared.TooEarly? {
        return Denied(GlobalRateLimited, 429, Some(shared.retryAfterSeconds));
      }
      if concurrency >= p.concurrency {
        return Denied(ConcurrencyLimited, 429, Some(1));
      }
      if isNew {
        objects := objects + [state];
        sources := sources[key := slot];
      }
      globalTatMs := shared.nextTatMs;
      objects := Assign(objects, slot, state.(lastSeenMs := nowMs, activeLeases := state.activeLeases + 1));
      concurrency := concurrency + 1;
      leases := leases + [Lease(key, slot, nowMs, false)];
      decision := Allowed(|leases| - 1);
      ghost var granted := Granted(old(Contents()), key, source.nextTatMs, shared.nextTatMs, nowMs);
      assert objects == granted.objects && sources == granted.sources;
    }

    /** The release closure of lease `i`; calling it again changes nothing. */
    method Release(i: nat)
      modifies this
      ensures Contents() == Released(old(Contents()), i)
      ensures Released(Contents(), i) == Contents()
      ensures forall capacity, p | Accounted(old(Contents()), capacity, p) ::
                && Accounted(Contents(), capacity, p)
                && concurrency == old(concurrency) - One(i < |old(leases)| && !old(leases)[i].released)
    {
      forall capacity, p | Accounted(Contents(), capacity, p)
        ensures Accounted(Released(Contents(), i), capacity, p)
        ensures Released(Contents(), i).concurrency == concurrency - One(i < |leases| && !leases[i].released)
      {
        ReleaseKeepsAccounts(Contents(), capacity, p, i);
      }
      if i >= |leases| || leases[i].released {
        return;
      }
      var slot := leases[i].slot;
      leases := leases[i := leases[i].(released := true)];
      var state := Deref(objects, slot);
      objects := Assign(objects, slot, state.(activeLeases := Max(0, state.activeLeases - 1)));
      concurrency := Max(0, concurrency - 1);
    }
  }

  class MemoryEdgeAdmissionGate {
    const policies: Policies
    const webhook: ClassLane
    const audit: ClassLane
    const api: ClassLane
    var lastClockMs: int
    /** The calls made so far. */
    ghost var calls: seq<Call>

    ghost predicate Valid()
      reads this, webhook, audit, api
    {
      && webhook != audit && webhook != api && audit != api
      && AllAccepted(policies)
      && Contents() == RunGate(policies, calls)
    }

    function Contents(): Gate
      reads this, webhook, audit, api
    {
      Gate(lastClockMs, webhook.Contents(), audit.Contents(), api.Contents())
    }

    function LaneObject(c: RequestClass): ClassLane {
      match c
      case AccountWebhook => webhook
      case AuditDownload => audit
      case SignedApi => api
    }

    constructor (policies: Policies)
      requires AllAccepted(policies)
      ensures Valid() && this.policies == policies && calls == []
      ensures fresh(webhook) && fresh(audit) && fresh(api)
    {
      this.policies := policies;
      webhook := new ClassLane();
      audit := new ClassLane();
      api := new ClassLane();
      lastClockMs, calls := 0, [];
    }

    method Now(observed: Option<real>) returns (nowMs: Option<int>)
      modifies this`lastClockMs
      ensures nowMs == ReadClock(old(lastClockMs), observed)
      ensures lastClockMs == if nowMs.Some? then nowMs.value else old(lastClockMs)
    {
      if observed.None? || observed.value < 0.0 {
        return None;
      }
      lastClockMs := Max(lastClockMs, observed.value.Floor);
      nowMs := Some(lastClockMs);
    }

    /** One admission request. Whatever happened before, the class was admitted
        at most burst + length / interval times in every interval of the clock. */
    method Acquire(c: RequestClass, headers: Headers, observed: Option<real>) returns (decision: Decision)
      requires Valid()
      modifies this, webhook, audit, api
      ensures Valid() && calls == old(calls) + [AcquireCall(c, headers, observed)]
      ensures (Contents(), decision) == EdgeAdmission.Acquire(old(Contents()), policies, c, headers, observed)
      ensures forall since, until | since <= until ::
                Count(LaneOf(Contents(), c).leases, Within(None, since, until))
                <= PolicyOf(policies, c).global.burst + (until - since) / PolicyOf(policies, c).global.intervalMs
    {
      ghost var call := AcquireCall(c, headers, observed);
      calls := calls + [call];
      assert calls[..|calls| - 1] == old(calls);
      decision := Decide(c, headers, observed);
      forall since, until | since <= until
        ensures Count(LaneOf(Contents(), c).leases, Within(None, since, until))
                <= PolicyOf(policies, c).global.burst + (until - since) / PolicyOf(policies, c).global.intervalMs
      {
        EveryRunIsRateBounded(policies, calls, c, None, since, until);
      }
    }

    method Decide(c: RequestClass, headers: Headers, observed: Option<real>) returns (decision: Decision)
      requires webhook != audit && webhook != api && audit != api
      modifies this`lastClockMs, webhook, audit, api
      ensures (Contents(), decision) == EdgeAdmission.Acquire(old(Contents()), policies, c, headers, observed)
    {
      if headers.Refused? {
        return Denied(headers.reason, headers.status, None);
      }
      var nowMs := Now(observed);
      if nowMs.None? {
        return Denied(ClockUnavailable, 503, None);
      }
      var lane := LaneObject(c);
      lane.Sweep(nowMs.value);
      decision := lane.Admit(PolicyOf(policies, c), Capacity(c), headers.key, nowMs.value);
    }

    /** Releasing an outstanding lease lowers both counters by exactly one. */
    method Release(c: RequestClass, i: nat)
      requires Valid()
      modifies this`calls, webhook, audit, api
      ensures Valid() && calls == old(calls) + [ReleaseCall(c, i)]
      ensures Contents() == WithLane(old(Contents()), c, Released(LaneOf(old(Contents()), c), i))
      ensures LaneObject(c).concurrency == old(LaneObject(c).concurrency)
                - One(i < |old(LaneObject(c).leases)| && !old(LaneObject(c).leases)[i].released)
    {
      RunKeepsLane(policies, calls, c);
      ReleaseKeepsAccounts(LaneOf(Contents(), c), Capacity(c), PolicyOf(policies, c), i);
      calls := calls + [ReleaseCall(c, i)];
      assert calls[..|calls| - 1] == old(calls);
      var lane := LaneObject(c);
      lane.Release(i);
    }
  }
}
