/** The reconciliation scan of one installation: its window, the paged listing,
    the checkpoint compare-and-set, and what a committed checkpoint covers. */
module Scanner {
  import opened Prelude

  const OVERLAP_MS: int := 60 * 60 * 1_000
  const MAX_PAGES: nat := 10_000

  // ----------------------------------------------------------- one listing

  datatype Page = Page(refunds: seq<string>, hasMore: bool)

  datatype ScanError = PageLimitExceeded | EmptyPageWithMore | CursorDidNotAdvance | ListingFailed | ObservationFailed

  function LastId(ids: seq<string>): Option<string> { if ids == [] then None else Some(ids[|ids| - 1]) }

  function Concat(pages: seq<Page>): seq<string> {
    if pages == [] then [] else Concat(pages[..|pages| - 1]) + pages[|pages| - 1].refunds
  }

  lemma ConcatAppend(pages: seq<Page>, n: nat)
    requires n < |pages|
    ensures Concat(pages[..n + 1]) == Concat(pages[..n]) + pages[n].refunds
  {
    assert pages[..n + 1][..n] == pages[..n];
  }

  /** Stripe's contract for cursor pagination: the answers after one another
      continue one listing, and more is announced exactly while it goes on. */
  predicate Paginates(pages: seq<Page>, listing: seq<string>) {
    forall n: nat | n < |pages| ::
      Concat(pages[..n + 1]) <= listing && (pages[n].hasMore <==> Concat(pages[..n + 1]) != listing)
  }

  /** The loop of a scan over the successive answers of Stripe (an answer that is
      missing is a call that threw), observing each refund; `failing` are the
      refunds whose observation throws. */
  method ScanPages(pages: seq<Page>, failing: set<string>)
    returns (result: Result<nat, ScanError>, observed: seq<string>)
    ensures result.Ok? ==>
              && 0 < result.value <= |pages| && result.value <= MAX_PAGES
              && observed == Concat(pages[..result.value])
              && !pages[result.value - 1].hasMore
              && forall id | id in observed :: id !in failing
    ensures result.Ok? ==>
              forall listing | Paginates(pages, listing) :: observed == listing
    ensures forall listing | Paginates(pages, listing) :: observed <= listing
    ensures result == Err(PageLimitExceeded) ==> |pages| >= MAX_PAGES && forall n: nat | n < MAX_PAGES :: pages[n].hasMore
    ensures result == Err(EmptyPageWithMore) ==> exists n: nat | n < |pages| :: pages[n].hasMore && pages[n].refunds == []
    ensures result == Err(CursorDidNotAdvance) ==>
              exists n: nat | 0 < n < |pages| :: LastId(pages[n].refunds).Some? && LastId(pages[n].refunds) == LastId(pages[n - 1].refunds)
    ensures result == Err(ListingFailed) ==> |pages| < MAX_PAGES && forall n: nat | n < |pages| :: pages[n].hasMore
    ensures result == Err(ObservationFailed) ==> exists n: nat, id | n < |pages| && id in pages[n].refunds :: id in failing
  {
    var startingAfter: Option<string> := None;
    var pageCount := 0;
    observed := [];
    while true
      invariant pageCount <= MAX_PAGES && pageCount <= |pages|
      invariant observed == Concat(pages[..pageCount])
      invariant forall id | id in observed :: id !in failing
      invariant forall n: nat | n < pageCount :: pages[n].hasMore
      invariant startingAfter == if pageCount == 0 then None else LastId(pages[pageCount - 1].refunds)
      invariant forall listing | Paginates(pages, listing) :: observed <= listing
      decreases MAX_PAGES - pageCount
    {
      if pageCount >= MAX_PAGES {
        return Err(PageLimitExceeded), observed;
      }
      if pageCount >= |pages| {
        return Err(ListingFailed), observed;
      }
      var page := pages[pageCount];
      ghost var before := observed;
      ConcatAppend(pages, pageCount);
      pageCount := pageCount + 1;
      var i := 0;
      while i < |page.refunds|
        invariant i <= |page.refunds|
        invariant observed == before + page.refunds[..i]
        invariant forall id | id in observed :: id !in failing
      {
        if page.refunds[i] in failing {
          assert observed <= before + page.refunds;
          return Err(ObservationFailed), observed;
        }
        observed := observed + [page.refunds[i]];
        i := i + 1;
      }
      assert page.refunds[..i] == page.refunds;
      if !page.hasMore {
        break;
      }
      var last := LastId(page.refunds);
      if last.None? {
        return Err(EmptyPageWithMore), observed;
      }
      if last == startingAfter {
        return Err(CursorDidNotAdvance), observed;
      }
      startingAfter := last;
    }
    result := Ok(pageCount);
  }

  // -------------------------------------------------------- the checkpoint

  datatype Checkpoint = Checkpoint(
    committedThrough: Time, scanWindowEnd: Option<Time>, startingAfter: Option<string>, pageInProgress: bool)

  datatype Window = Window(previous: Option<Time>, start: Time, end: Time)

  /** The window a scan derives from the checkpoint it loaded. */
  function WindowFor(checkpoint: Option<Time>, installedAt: Time, end: Time): (w: Window)
    ensures w.start <= w.end - OVERLAP_MS
  {
    match checkpoint
    case None => Window(None, Min(installedAt, end) - OVERLAP_MS, end)
    case Some(through) => Window(Some(Min(through, end)), Min(through, end) - OVERLAP_MS, end)
  }

  /** None means the compare-and-set failed. */
  function Committed(current: Option<Time>, w: Window): Option<Time> {
    if current == w.previous then Some(w.end) else None
  }

  /** The checkpoint row of one installation. */
  class CheckpointRow {
    var row: Option<Checkpoint>

    function Through(): Option<Time>
      reads this
    {
      if row.None? then None else Some(row.value.committedThrough)
    }

    constructor ()
      ensures Through() == None
    {
      row := None;
    }

    /** Commits a window in one transaction: compare with the checkpoint the scan
        loaded, open the window, close it by a guarded update. Once the first
        comparison holds the closing update matches; a failed commit leaves the
        row as it was, and a committed one has no window in progress. */
    method Commit(w: Window) returns (ok: bool)
      modifies this
      ensures ok <==> old(Through()) == w.previous
      ensures ok ==> Through() == Some(w.end) == Committed(old(Through()), w) && Idle()
      ensures ok && WindowOf(w) && old(Through()).Some? ==> old(Through()).value <= Through().value
      ensures !ok ==> row == old(row)
    {
      if Through() != w.previous {
        return false;
      }
      if row.None? {
        row := Some(Checkpoint(w.start, Some(w.end), None, true));
      } else {
        row := Some(row.value.(scanWindowEnd := Some(w.end), startingAfter := None, pageInProgress := true));
      }
      ok := row.value.scanWindowEnd == Some(w.end) && row.value.startingAfter == None && row.value.pageInProgress;
      assert ok;
      row := Some(Checkpoint(w.end, None, None, false));
    }

    predicate Idle()
      reads this
    {
      row.None? || (row.value.scanWindowEnd.None? && row.value.startingAfter.None? && !row.value.pageInProgress)
    }
  }

  /** A window as the scan derives it: it never ends before the checkpoint. */
  predicate WindowOf(w: Window) { w.previous.Some? ==> w.previous.value <= w.end }

  // --------------------------------------- racing scans and a bad clock

  /** A refund in Stripe; it may show up in listings some time after creation. */
  datatype Refund = Refund(created: Time, listableAt: Time)

  datatype Scan = Scan(window: Window, listed: bool)

  /** `observed` are the indices of the refunds some scan has observed. */
  datatype World = World(
    now: Time, checkpoint: Option<Time>, refunds: seq<Refund>, scans: seq<Scan>, observed: set<nat>)

  datatype Event =
    | Tick(now: Time)
    | Create(listableAt: Time)
    | Start(end: Time)
    | List(scan: nat)
    | Commit(scan: nat)

  function StripeTimestamp(t: Time): int { Max(0, t / 1_000) }

  predicate InListing(r: Refund, w: Window, now: Time) {
    r.listableAt <= now && StripeTimestamp(w.start) <= StripeTimestamp(r.created) <= StripeTimestamp(w.end)
  }

  /** How late a refund may show up in listings, and how far the worker's clock
      may be ahead of Stripe's. */
  datatype Slack = Slack(delay: int, skew: int)

  /** Delay and skew together fit into the overlap. */
  predicate Fits(x: Slack) { 0 <= x.delay && 0 <= x.skew < OVERLAP_MS && x.delay + x.skew <= OVERLAP_MS }

  /** Real time advances; refunds become listable within the delay; the worker's
      clock is ahead by at most the skew, and may jump back at will. */
  predicate Honest(w: World, e: Event, x: Slack) {
    match e
    case Tick(now) => w.now <= now
    case Create(listableAt) => w.now <= listableAt <= w.now + x.delay
    case Start(end) => end <= w.now + x.skew
    case _ => true
  }

  function Next(w: World, installedAt: Time, e: Event): World {
    match e
    case Tick(now) => w.(now := now)
    case Create(listableAt) => w.(refunds := w.refunds + [Refund(w.now, listableAt)])
    case Start(end) => w.(scans := w.scans + [Scan(WindowFor(w.checkpoint, installedAt, end), false)])
    case List(i) =>
      if i >= |w.scans| then w
      else w.(scans := w.scans[i := w.scans[i].(listed := true)],
              observed := w.observed + set k: nat | k < |w.refunds| && InListing(w.refunds[k], w.scans[i].window, w.now))
    case Commit(i) =>
      if i >= |w.scans| || !w.scans[i].listed || Committed(w.checkpoint, w.scans[i].window).None? then w
      else w.(checkpoint := Committed(w.checkpoint, w.scans[i].window))
  }

  function RunScans(w: World, installedAt: Time, events: seq<Event>): World {
    if events == [] then w else Next(RunScans(w, installedAt, events[..|events| - 1]), installedAt, events[|events| - 1])
  }

  predicate HonestRun(w: World, installedAt: Time, events: seq<Event>, x: Slack) {
    events == []
    || (&& HonestRun(w, installedAt, events[..|events| - 1], x)
        && Honest(RunScans(w, installedAt, events[..|events| - 1]), events[|events| - 1], x))
  }

  function Start0(now: Time): World { World(now, None, [], [], {}) }

  predicate NotBefore(a: Option<Time>, b: Option<Time>) { a.None? || (b.Some? && a.value <= b.value) }

  /** Every window in flight was derived from some checkpoint value. */
  predicate WindowsDerived(w: World, installedAt: Time) {
    forall i | 0 <= i < |w.scans| ::
      var x := w.scans[i].window;
      && x.start == (if x.previous.None? then Min(installedAt, x.end) else x.previous.value) - OVERLAP_MS
      && (x.previous.Some? ==> x.previous.value <= x.end)
  }

  lemma {:induction false} RunDerivesWindows(w: World, installedAt: Time, events: seq<Event>)
    requires WindowsDerived(w, installedAt)
    ensures WindowsDerived(RunScans(w, installedAt, events), installedAt)
  {
    if events != [] {
      RunDerivesWindows(w, installedAt, events[..|events| - 1]);
    }
  }

  /** The committed checkpoint never moves back, over every run of any number of
      racing scans, whatever their clocks say. */
  lemma {:induction false} CheckpointNeverMovesBack(w: World, installedAt: Time, events: seq<Event>)
    requires WindowsDerived(w, installedAt)
    ensures NotBefore(w.checkpoint, RunScans(w, installedAt, events).checkpoint)
  {
    if events != [] {
      CheckpointNeverMovesBack(w, installedAt, events[..|events| - 1]);
      RunDerivesWindows(w, installedAt, events[..|events| - 1]);
    }
  }

  // ------------------------------------------------------------- coverage

  /** Everything old enough in the window of a listed scan is observed. */
  predicate ListedIsObserved(w: World) {
    forall i, k: nat | 0 <= i < |w.scans| && w.scans[i].listed && k < |w.refunds|
                       && Settled(w.refunds[k], w.scans[i].window) :: k in w.observed
  }

  predicate Settled(r: Refund, x: Window) { x.start <= r.created && r.created + OVERLAP_MS <= x.end }

  predicate Covered(w: World, installedAt: Time) {
    w.checkpoint.Some? ==>
      forall k: nat | k < |w.refunds| && installedAt <= w.refunds[k].created <= w.checkpoint.value - OVERLAP_MS ::
        k in w.observed
  }

  predicate Timed(w: World, x: Slack) {
    && (forall k: nat | k < |w.refunds| ::
          w.refunds[k].created <= w.now && w.refunds[k].listableAt <= w.refunds[k].created + x.delay)
    && (forall i | 0 <= i < |w.scans| :: w.scans[i].window.end <= w.now + x.skew)
    && (w.checkpoint.Some? ==> w.checkpoint.value <= w.now + x.skew)
  }

  predicate Sound(w: World, installedAt: Time, x: Slack) {
    WindowsDerived(w, installedAt) && Timed(w, x) && ListedIsObserved(w) && Covered(w, installedAt)
  }

  /** Seconds are coarser than milliseconds, so a window of seconds holds every
      instant of the window of milliseconds; and what is old enough for the
      window is listable by the time it is listed. */
  lemma SecondsCoverWindow(r: Refund, x: Window, now: Time, slack: Slack)
    requires Fits(slack) && Settled(r, x) && x.end <= now + slack.skew && r.listableAt <= r.created + slack.delay
    ensures InListing(r, x, now)
  {
  }

  lemma ListKeepsSound(w: World, installedAt: Time, i: nat, x: Slack)
    requires Fits(x) && Sound(w, installedAt, x) && i < |w.scans|
    ensures Sound(Next(w, installedAt, List(i)), installedAt, x)
  {
    var w' := Next(w, installedAt, List(i));
    forall j, k: nat | 0 <= j < |w'.scans| && w'.scans[j].listed && k < |w'.refunds|
                       && Settled(w'.refunds[k], w'.scans[j].window)
      ensures k in w'.observed
    {
      if j == i {
        SecondsCoverWindow(w.refunds[k], w.scans[i].window, w.now, x);
      }
    }
  }

  lemma CommitKeepsSound(w: World, installedAt: Time, i: nat, x: Slack)
    requires Sound(w, installedAt, x) && i < |w.scans| && w.scans[i].listed && Committed(w.checkpoint, w.scans[i].window).Some?
    ensures Sound(Next(w, installedAt, Commit(i)), installedAt, x)
  {
    var w' := Next(w, installedAt, Commit(i));
    var window := w.scans[i].window;
    forall k: nat | k < |w.refunds| && installedAt <= w.refunds[k].created <= window.end - OVERLAP_MS
      ensures k in w'.observed
    {
      assert window.start <= w.refunds[k].created ==> Settled(w.refunds[k], window);
    }
  }

  /** A young refund cannot be in the settled part of any window yet. */
  lemma CreateKeepsSound(w: World, installedAt: Time, listableAt: Time, x: Slack)
    requires Fits(x) && Sound(w, installedAt, x) && Honest(w, Create(listableAt), x)
    ensures Sound(Next(w, installedAt, Create(listableAt)), installedAt, x)
  {
  }

  lemma StepKeepsSound(w: World, installedAt: Time, e: Event, x: Slack)
    requires Fits(x) && Sound(w, installedAt, x) && Honest(w, e, x)
    ensures Sound(Next(w, installedAt, e), installedAt, x)
  {
    match e
    case Tick(_) =>
    case Create(listableAt) => CreateKeepsSound(w, installedAt, listableAt, x);
    case Start(end) =>
    case List(i) => if i < |w.scans| { ListKeepsSound(w, installedAt, i, x); }
    case Commit(i) =>
      if i < |w.scans| && w.scans[i].listed && Committed(w.checkpoint, w.scans[i].window).Some? {
        CommitKeepsSound(w, installedAt, i, x);
      }
  }

  lemma {:induction false} RunKeepsSound(now: Time, installedAt: Time, events: seq<Event>, x: Slack)
    requires Fits(x) && HonestRun(Start0(now), installedAt, events, x)
    ensures Sound(RunScans(Start0(now), installedAt, events), installedAt, x)
  {
    if events != [] {
      RunKeepsSound(now, installedAt, events[..|events| - 1], x);
      StepKeepsSound(RunScans(Start0(now), installedAt, events[..|events| - 1]), installedAt, events[|events| - 1], x);
    }
  }

  /** Scan coverage: for any listing delay and any clock lead that together fit
      into the one-hour overlap, after every run every refund created from
      installation up to the overlap before the checkpoint has been observed. */
  lemma EveryCheckpointIsCovered(now: Time, installedAt: Time, events: seq<Event>, x: Slack)
    requires Fits(x) && HonestRun(Start0(now), installedAt, events, x)
    ensures Covered(RunScans(Start0(now), installedAt, events), installedAt)
  {
    RunKeepsSound(now, installedAt, events, x);
  }

  lemma RunAppend(w: World, installedAt: Time, events: seq<Event>, e: Event, x: Slack)
    ensures RunScans(w, installedAt, events + [e]) == Next(RunScans(w, installedAt, events), installedAt, e)
    ensures HonestRun(w, installedAt, events + [e], x) <==>
              HonestRun(w, installedAt, events, x) && Honest(RunScans(w, installedAt, events), e, x)
  {
    assert (events + [e])[..|events|] == events;
  }

  /** The overlap is exactly what is needed: with more delay and skew than fits,
      one scan by a leading clock commits past a refund it could not see. */
  lemma TooMuchSlackLosesRefunds(t: Time, x: Slack) returns (events: seq<Event>)
    requires 0 <= x.delay && 0 <= x.skew < OVERLAP_MS && x.delay + x.skew > OVERLAP_MS
    ensures HonestRun(Start0(t), t, events, x) && !Covered(RunScans(Start0(t), t, events), t)
  {
    var w0 := Start0(t);
    var n := t + OVERLAP_MS - x.skew;
    var e1, e2, e3, e4, e5 := Create(t + x.delay), Tick(n), Start(t + OVERLAP_MS), List(0), Commit(0);
    RunAppend(w0, t, [], e1, x);
    RunAppend(w0, t, [] + [e1], e2, x);
    RunAppend(w0, t, [] + [e1] + [e2], e3, x);
    RunAppend(w0, t, [] + [e1] + [e2] + [e3], e4, x);
    RunAppend(w0, t, [] + [e1] + [e2] + [e3] + [e4], e5, x);
    events := [] + [e1] + [e2] + [e3] + [e4] + [e5];
    var w := RunScans(w0, t, events);
    assert w.refunds == [Refund(t, t + x.delay)] && w.checkpoint == Some(t + OVERLAP_MS) && w.observed == {};
    assert w.refunds[0].created == t;
  }

  /** When every run is covered, for a clock less than an hour ahead: if and only
      if delay and skew fit into the overlap. */
  lemma CoveredIffSlackFits(x: Slack)
    requires 0 <= x.delay && 0 <= x.skew < OVERLAP_MS
    ensures (forall now, installedAt, events | HonestRun(Start0(now), installedAt, events, x) ::
               Covered(RunScans(Start0(now), installedAt, events), installedAt)) <==> x.delay + x.skew <= OVERLAP_MS
  {
    if x.delay + x.skew <= OVERLAP_MS {
      forall now, installedAt, events | HonestRun(Start0(now), installedAt, events, x)
        ensures Covered(RunScans(Start0(now), installedAt, events), installedAt)
      {
        EveryCheckpointIsCovered(now, installedAt, events, x);
      }
    } else {
      var events := TooMuchSlackLosesRefunds(0, x);
    }
  }

  /** A scan that nobody races commits its window when its clock has not fallen
      behind the checkpoint, and only then: the checkpoint becomes its end. */
  lemma UnracedScanCommitsIff(w: World, installedAt: Time, end: Time)
    ensures var i := |w.scans|;
            var w' := Next(Next(Next(w, installedAt, Start(end)), installedAt, List(i)), installedAt, Commit(i));
            && (w.checkpoint.None? || w.checkpoint.value <= end ==> w'.checkpoint == Some(end))
            && (w.checkpoint.Some? && end < w.checkpoint.value ==> w'.checkpoint == w.checkpoint)
            && forall k: nat | k < |w.refunds| && InListing(w.refunds[k], WindowFor(w.checkpoint, installedAt, end), w.now) :: k in w'.observed
  {
  }
}
