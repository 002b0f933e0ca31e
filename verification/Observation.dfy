/** Which observation of a linked Stripe refund may overwrite the stored one:
    the repository's locked rule and the worker's filter in front of it. */
module Observation {
  import opened Prelude
  import opened Domain

  /** What the repository stores about the linked refund. */
  datatype Stored = Stored(status: Option<RefundStatus>, lastEventAt: Option<Time>)

  /** The locked compare-and-set rule; `eventAt` is absent for snapshots. */
  predicate ShouldApplyRefundObservation(stored: Stored, incoming: Option<RefundStatus>, eventAt: Option<Time>) {
    var current := stored.status;
    var bothTimed := eventAt.Some? && stored.lastEventAt.Some?;
    if bothTimed && eventAt.value < stored.lastEventAt.value then false
    else if current == Some(RefundFailed) then incoming == Some(RefundFailed)
    else if current == Some(RefundCanceled) then incoming == Some(RefundCanceled) || incoming == Some(RefundFailed)
    else if current == Some(RefundSucceeded) && incoming != Some(RefundSucceeded) then
      incoming == Some(RefundFailed) || incoming == Some(RefundCanceled)
    else if current.Some? && incoming.None? then false
    else if bothTimed && eventAt.value == stored.lastEventAt.value && incoming != current then
      if incoming == Some(RefundFailed) then true
      else if current.None? && incoming.Some? then true
      else incoming == Some(RefundSucceeded) || incoming == Some(RefundCanceled)
    else true
  }

  /** The stored pair after offering an observation to the repository. */
  function Offer(stored: Stored, incoming: Option<RefundStatus>, eventAt: Option<Time>): Stored {
    if ShouldApplyRefundObservation(stored, incoming, eventAt)
    then Stored(incoming, if eventAt.Some? then eventAt else stored.lastEventAt)
    else stored
  }

  datatype Source =
    | Webhook(eventCreatedSeconds: int, isFailedEvent: bool, idempotencyKey: Option<string>)
    | Scan(windowEnd: Time)

  /** A `refund.failed` event means failed whatever the embedded object says. */
  function AuthoritativeStatus(source: Source, reported: Option<RefundStatus>): Option<RefundStatus> {
    if source.Webhook? && source.isFailedEvent then Some(RefundFailed) else reported
  }

  function EventTime(source: Source): Option<Time> {
    match source
    case Webhook(seconds, _, _) => Some(seconds * 1000)
    case Scan(_) => None
  }

  /** The worker's filter in front of the repository. */
  predicate ShouldApplyLinkedRefundObservation(stored: Stored, source: Source, reported: Option<RefundStatus>) {
    match source
    case Scan(_) => stored.status != reported
    case Webhook(seconds, _, _) =>
      if stored.lastEventAt.None? then true
      else if seconds * 1000 > stored.lastEventAt.value then true
      else if seconds * 1000 < stored.lastEventAt.value then false
      else
        var incoming := AuthoritativeStatus(source, reported);
        if incoming == Some(RefundFailed) then stored.status != Some(RefundFailed)
        else if incoming == Some(RefundCanceled) then
          stored.status != Some(RefundFailed) && stored.status != Some(RefundCanceled)
        else false
  }

  /** Unknown, then open, then succeeded, then canceled, then failed. */
  function Rank(status: Option<RefundStatus>): nat {
    match status
    case None => 0
    case Some(RefundPending) | Some(RefundRequiresAction) => 1
    case Some(RefundSucceeded) => 2
    case Some(RefundCanceled) => 3
    case Some(RefundFailed) => 4
  }

  predicate Unsettled(status: Option<RefundStatus>) { Rank(status) <= 1 }

  /** Folding any stream of observations into a stored pair. */
  function OfferAll(stored: Stored, stream: seq<(Option<RefundStatus>, Option<Time>)>): Stored {
    if stream == [] then stored
    else
      var last := stream[|stream| - 1];
      Offer(OfferAll(stored, stream[..|stream| - 1]), last.0, last.1)
  }

  predicate NotBefore(earlier: Option<Time>, later: Option<Time>) {
    earlier.None? || (later.Some? && earlier.value <= later.value)
  }

  /** No stream of observations, in any order, ever lowers the stored rank or
      moves the event watermark back. */
  lemma {:induction false} StreamNeverRegresses(stored: Stored, stream: seq<(Option<RefundStatus>, Option<Time>)>)
    ensures Rank(stored.status) <= Rank(OfferAll(stored, stream).status)
    ensures NotBefore(stored.lastEventAt, OfferAll(stored, stream).lastEventAt)
  {
    if stream != [] {
      StreamNeverRegresses(stored, stream[..|stream| - 1]);
    }
  }

  /** Once a failure is stored no stream of observations removes it. */
  lemma {:induction false} FailureIsFinal(stored: Stored, stream: seq<(Option<RefundStatus>, Option<Time>)>)
    requires stored.status == Some(RefundFailed)
    ensures OfferAll(stored, stream).status == Some(RefundFailed)
  {
    if stream != [] {
      FailureIsFinal(stored, stream[..|stream| - 1]);
    }
  }

  /** Delivery order does matter: an older failure arriving after a newer
      success is dropped, while in time order it wins. */
  lemma DeliveryOrderMatters(t: Time, u: Time)
    requires t < u
    ensures var none := Stored(None, None);
            var failedThenSucceeded := [(Some(RefundFailed), Some(t)), (Some(RefundSucceeded), Some(u))];
            var succeededThenFailed := [(Some(RefundSucceeded), Some(u)), (Some(RefundFailed), Some(t))];
            && OfferAll(none, failedThenSucceeded).status == Some(RefundFailed)
            && OfferAll(none, succeededThenFailed).status == Some(RefundSucceeded)
  {
    var none := Stored(None, None);
    var a := [(Some(RefundFailed), Some(t)), (Some(RefundSucceeded), Some(u))];
    var b := [(Some(RefundSucceeded), Some(u)), (Some(RefundFailed), Some(t))];
    assert a[..1] == [a[0]] && b[..1] == [b[0]] && a[..1][..0] == [] && b[..1][..0] == [];
    assert OfferAll(none, a[..1]) == Offer(none, a[0].0, a[0].1);
    assert OfferAll(none, b[..1]) == Offer(none, b[0].0, b[0].1);
  }

  // ------------------------------------------ exactly when deliveries commute

  /** An observation: a status and, for an event, its time. */
  type Delivery = (Option<RefundStatus>, Option<Time>)

  function Deliver(stored: Stored, d: Delivery): Stored { Offer(stored, d.0, d.1) }

  predicate Applies(stored: Stored, d: Delivery) { ShouldApplyRefundObservation(stored, d.0, d.1) }

  predicate Older(d: Delivery, e: Delivery) { d.1.Some? && e.1.Some? && d.1.value < e.1.value }

  /** The higher-ranked of two deliveries is not the older event. */
  predicate HigherIsNotOlder(a: Delivery, b: Delivery) {
    && (Rank(a.0) > Rank(b.0) ==> !Older(a, b))
    && (Rank(b.0) > Rank(a.0) ==> !Older(b, a))
  }

  /** Pending and requires-action are decided by time: two different times, or
      one event at the stored watermark against an untimed snapshot. */
  predicate TimeDecides(stored: Stored, a: Delivery, b: Delivery) {
    || (a.1.Some? && b.1.Some? && a.1 != b.1)
    || (a.1.None? && b.1.Some? && b.1 == stored.lastEventAt)
    || (b.1.None? && a.1.Some? && a.1 == stored.lastEventAt)
  }

  /** When two deliveries store the same status in either order, read off their
      statuses, their times and the stored pair. */
  predicate Commute(stored: Stored, a: Delivery, b: Delivery) {
    Applies(stored, a) && Applies(stored, b) && a.0 != b.0 ==>
      HigherIsNotOlder(a, b) && (Rank(a.0) == Rank(b.0) ==> TimeDecides(stored, a, b))
  }

  /** In addition the watermark agrees: the higher-ranked one carries a time, or
      the other carries none that moves the stored watermark. */
  predicate CommuteExactly(stored: Stored, a: Delivery, b: Delivery) {
    && Commute(stored, a, b)
    && (Applies(stored, a) && Applies(stored, b) ==>
          && (Rank(a.0) > Rank(b.0) && a.1.None? ==> b.1.None? || b.1 == stored.lastEventAt)
          && (Rank(b.0) > Rank(a.0) && b.1.None? ==> a.1.None? || a.1 == stored.lastEventAt))
  }

  /** Exactly which deliveries are applied: those that are not older than the
      watermark and rank higher, repeat the status, or exchange one open status
      for the other at a different time. */
  lemma AppliesIffNewerOrHigher(stored: Stored, d: Delivery)
    ensures Applies(stored, d) <==>
              && !(d.1.Some? && stored.lastEventAt.Some? && d.1.value < stored.lastEventAt.value)
              && (|| Rank(d.0) > Rank(stored.status)
                  || d.0 == stored.status
                  || (Rank(d.0) == Rank(stored.status) && (d.1.None? || d.1 != stored.lastEventAt)))
  {
  }

  /** Delivery order, exactly: for every stored pair and any two deliveries. */
  lemma DeliveriesCommuteIff(stored: Stored, a: Delivery, b: Delivery)
    ensures Deliver(Deliver(stored, a), b).status == Deliver(Deliver(stored, b), a).status <==> Commute(stored, a, b)
  {
    if Applies(stored, a) && Applies(stored, b) {
      SecondDelivery(stored, a, b);
      SecondDelivery(stored, b, a);
    } else {
      DroppedStaysHarmless(stored, a, b);
      DroppedStaysHarmless(stored, b, a);
    }
  }

  lemma DeliveriesAgreeIff(stored: Stored, a: Delivery, b: Delivery)
    ensures Deliver(Deliver(stored, a), b) == Deliver(Deliver(stored, b), a) <==> CommuteExactly(stored, a, b)
  {
    DeliveriesCommuteIff(stored, a, b);
    if Applies(stored, a) && Applies(stored, b) {
      SecondDelivery(stored, a, b);
      SecondDelivery(stored, b, a);
    } else {
      DroppedStaysHarmless(stored, a, b);
      DroppedStaysHarmless(stored, b, a);
    }
  }

  /** What survives of the second of two applicable deliveries. */
  predicate Supersedes(stored: Stored, a: Delivery, b: Delivery) {
    || Older(b, a)
    || Rank(a.0) > Rank(b.0)
    || (a.0 != b.0 && Rank(a.0) == Rank(b.0) && b.1.Some? && b.1 == if a.1.Some? then a.1 else stored.lastEventAt)
  }

  lemma SecondDelivery(stored: Stored, a: Delivery, b: Delivery)
    requires Applies(stored, a) && Applies(stored, b)
    ensures Applies(Deliver(stored, a), b) <==> !Supersedes(stored, a, b)
  {
  }

  /** A delivery the stored pair refuses changes nothing after another one either. */
  lemma DroppedStaysHarmless(stored: Stored, a: Delivery, b: Delivery)
    ensures !Applies(stored, b) ==> Deliver(Deliver(stored, a), b) == Deliver(stored, a)
  {
  }

  // ------------------------------------------------------- whole streams

  lemma OfferLast(stored: Stored, stream: seq<Delivery>, d: Delivery)
    ensures OfferAll(stored, stream + [d]) == Deliver(OfferAll(stored, stream), d)
  {
    assert (stream + [d])[..|stream|] == stream;
  }

  lemma {:induction false} OfferConcat(stored: Stored, s: seq<Delivery>, t: seq<Delivery>)
    ensures OfferAll(stored, s + t) == OfferAll(OfferAll(stored, s), t)
    decreases |t|
  {
    if t == [] {
      assert s + t == s;
    } else {
      OfferConcat(stored, s, t[..|t| - 1]);
      OfferLast(stored, s + t[..|t| - 1], t[|t| - 1]);
      assert (s + t[..|t| - 1]) + [t[|t| - 1]] == s + t;
    }
  }

  /** Two neighbours of a stream exchanged. */
  function Swapped(stream: seq<Delivery>, i: nat): seq<Delivery>
    requires i + 1 < |stream|
  {
    stream[..i] + [stream[i + 1]] + [stream[i]] + stream[i + 2..]
  }

  /** Exchanging two neighbours that commute where they are delivered leaves the
      outcome of the whole stream unchanged. */
  lemma SwapKeepsOutcome(stored: Stored, stream: seq<Delivery>, i: nat)
    requires i + 1 < |stream| && CommuteExactly(OfferAll(stored, stream[..i]), stream[i], stream[i + 1])
    ensures OfferAll(stored, Swapped(stream, i)) == OfferAll(stored, stream)
  {
    var before, a, b, rest := stream[..i], stream[i], stream[i + 1], stream[i + 2..];
    DeliveriesAgreeIff(OfferAll(stored, before), a, b);
    OfferLast(stored, before, a);
    OfferLast(stored, before + [a], b);
    OfferLast(stored, before, b);
    OfferLast(stored, before + [b], a);
    OfferConcat(stored, before + [a] + [b], rest);
    OfferConcat(stored, before + [b] + [a], rest);
    assert before + [a] + [b] + rest == stream;
  }

  /** A rearrangement by swaps of neighbours, each commuting where it happens. */
  predicate Rearranges(stored: Stored, streams: seq<seq<Delivery>>, swaps: seq<nat>) {
    && |streams| == |swaps| + 1
    && forall k | 0 <= k < |swaps| ::
         && swaps[k] + 1 < |streams[k]| && streams[k + 1] == Swapped(streams[k], swaps[k])
         && CommuteExactly(OfferAll(stored, streams[k][..swaps[k]]), streams[k][swaps[k]], streams[k][swaps[k] + 1])
  }

  lemma {:induction false} RearrangementKeepsOutcome(stored: Stored, streams: seq<seq<Delivery>>, swaps: seq<nat>)
    requires Rearranges(stored, streams, swaps)
    ensures OfferAll(stored, streams[|swaps|]) == OfferAll(stored, streams[0])
    decreases |swaps|
  {
    if swaps != [] {
      var n := |swaps| - 1;
      SwapKeepsOutcome(stored, streams[n], swaps[n]);
      RearrangementKeepsOutcome(stored, streams[..n + 1], swaps[..n]);
    }
  }

  /** Events whose times settle any conflict between their statuses. */
  predicate Coherent(a: Delivery, b: Delivery) {
    && a.1.Some? && b.1.Some?
    && (a.0 != b.0 ==> HigherIsNotOlder(a, b) && (Rank(a.0) == Rank(b.0) ==> a.1 != b.1))
  }

  /** For two events, coherence is exactly order-independence in every state. */
  lemma CoherentIffAlwaysCommute(a: Delivery, b: Delivery)
    requires a.1.Some? && b.1.Some?
    ensures Coherent(a, b) <==> forall stored :: CommuteExactly(stored, a, b)
    ensures Coherent(a, b) <==> Commute(Stored(None, None), a, b)
  {
    assert Coherent(a, b) || !CommuteExactly(Stored(None, None), a, b);
  }

  predicate AllCoherent(stream: seq<Delivery>) {
    forall i, j | 0 <= i < |stream| && 0 <= j < |stream| :: Coherent(stream[i], stream[j])
  }

  lemma {:induction false} MoveToEnd(stored: Stored, stream: seq<Delivery>, k: nat)
    requires k < |stream| && AllCoherent(stream)
    ensures OfferAll(stored, stream) == OfferAll(stored, stream[..k] + stream[k + 1..] + [stream[k]])
    decreases |stream| - k
  {
    if k == |stream| - 1 {
      assert stream[..k] + stream[k + 1..] + [stream[k]] == stream;
    } else {
      var next := Swapped(stream, k);
      CoherentIffAlwaysCommute(stream[k], stream[k + 1]);
      SwapKeepsOutcome(stored, stream, k);
      SwapIsCoherent(stream, k);
      MoveToEnd(stored, next, k + 1);
      assert next[..k + 1] + next[k + 2..] + [next[k + 1]] == stream[..k] + stream[k + 1..] + [stream[k]];
    }
  }

  lemma SwapIsCoherent(stream: seq<Delivery>, k: nat)
    requires k + 1 < |stream| && AllCoherent(stream)
    ensures AllCoherent(Swapped(stream, k))
  {
    var next := Swapped(stream, k);
    assert forall i | 0 <= i < |next| :: next[i] == stream[if i == k then k + 1 else if i == k + 1 then k else i];
  }

  function Without(s: seq<Delivery>, k: nat): seq<Delivery>
    requires k < |s|
  {
    s[..k] + s[k + 1..]
  }

  lemma WithoutKeepsRest(s: seq<Delivery>, k: nat)
    requires k < |s|
    ensures multiset(s) == multiset(Without(s, k)) + multiset{s[k]}
    ensures AllCoherent(s) ==> AllCoherent(Without(s, k))
  {
    assert s == s[..k] + [s[k]] + s[k + 1..];
    var rest := Without(s, k);
    assert forall i | 0 <= i < |rest| :: rest[i] == s[if i < k then i else i + 1];
  }

  lemma Cancel(a: multiset<Delivery>, b: multiset<Delivery>, z: Delivery)
    requires a + multiset{z} == b + multiset{z}
    ensures a == b
  {
    assert a == (a + multiset{z}) - multiset{z} && b == (b + multiset{z}) - multiset{z};
  }

  /** Order-independence of streams: events that are pairwise coherent store the
      same pair in whatever order they are delivered. */
  lemma {:induction false} CoherentStreamsIgnoreOrder(stored: Stored, s: seq<Delivery>, t: seq<Delivery>)
    requires multiset(s) == multiset(t) && AllCoherent(s)
    ensures OfferAll(stored, s) == OfferAll(stored, t)
    decreases |t|
  {
    if t == [] {
      assert |multiset(s)| == |s|;
    } else {
      var n := |t| - 1;
      assert t[n] in multiset(s);
      var k :| 0 <= k < |s| && s[k] == t[n];
      WithoutKeepsRest(s, k);
      WithoutKeepsRest(t, n);
      assert Without(t, n) == t[..n];
      Cancel(multiset(Without(s, k)), multiset(t[..n]), t[n]);
      CoherentStreamsIgnoreOrder(stored, Without(s, k), t[..n]);
      MoveToEnd(stored, s, k);
      OfferLast(stored, Without(s, k), s[k]);
    }
  }

  /** Exactly when dropping an observation in the worker loses something the
      repository would have stored: an equally old event carrying a different,
      known, unsettled-or-succeeded status over an unsettled one. */
  predicate FilterLoses(stored: Stored, source: Source, reported: Option<RefundStatus>) {
    && source.Webhook?
    && stored.lastEventAt == Some(source.eventCreatedSeconds * 1000)
    && var incoming := AuthoritativeStatus(source, reported);
       if stored.status.None?
       then incoming.Some? && Rank(incoming) <= 2
       else Unsettled(stored.status) && incoming == Some(RefundSucceeded)
  }

  /** Two-layer freshness. A dropped observation would have left the stored
      status unchanged unless FilterLoses, and then the stored status is still
      unsettled, so the refresh lane revisits the refund. */
  lemma DroppedObservationIsHarmlessIff(stored: Stored, source: Source, reported: Option<RefundStatus>)
    requires !ShouldApplyLinkedRefundObservation(stored, source, reported)
    ensures var offered := Offer(stored, AuthoritativeStatus(source, reported), EventTime(source));
            && (offered.status == stored.status <==> !FilterLoses(stored, source, reported))
            && (FilterLoses(stored, source, reported) ==> Unsettled(stored.status))
  {
  }

  /** The equal-second case does reach the filter and is dropped there. */
  lemma FilterDropsWhatItLoses(stored: Stored, source: Source, reported: Option<RefundStatus>)
    requires FilterLoses(stored, source, reported)
    ensures !ShouldApplyLinkedRefundObservation(stored, source, reported)
    ensures Offer(stored, AuthoritativeStatus(source, reported), EventTime(source)).status != stored.status
  {
  }

  /** For example a success in the same second as a stored pending event. */
  lemma SameSecondSuccessIsDropped(seconds: int)
    ensures var stored := Stored(Some(RefundPending), Some(seconds * 1000));
            var source := Webhook(seconds, false, None);
            && !ShouldApplyLinkedRefundObservation(stored, source, Some(RefundSucceeded))
            && Offer(stored, Some(RefundSucceeded), EventTime(source)).status == Some(RefundSucceeded)
  {
  }

  /** Exactly what the worker's filter lets through: a scan that reports a changed
      status; a first or newer event; and of an equally old event only one that
      raises the stored status to canceled or failed. */
  lemma FilterPassesIff(stored: Stored, source: Source, reported: Option<RefundStatus>)
    ensures source.Scan? ==> (ShouldApplyLinkedRefundObservation(stored, source, reported) <==> reported != stored.status)
    ensures source.Webhook? ==>
              var incoming := AuthoritativeStatus(source, reported);
              ShouldApplyLinkedRefundObservation(stored, source, reported) <==>
                || stored.lastEventAt.None?
                || source.eventCreatedSeconds * 1000 > stored.lastEventAt.value
                || (source.eventCreatedSeconds * 1000 == stored.lastEventAt.value && Rank(incoming) >= 3 && Rank(incoming) > Rank(stored.status))
    ensures source.Webhook? && source.isFailedEvent ==> AuthoritativeStatus(source, reported) == Some(RefundFailed)
    ensures !(source.Webhook? && source.isFailedEvent) ==> AuthoritativeStatus(source, reported) == reported
  {
  }
}
