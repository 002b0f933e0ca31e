/** Durable execution attempts and the revision accounting that ties an
    approver's attested request version to the request's current version. */
module Execution {
  import opened Prelude
  import opened Domain

  datatype AttemptState = Started | Completed | RetryableFailure | TerminalFailure | AmbiguousFailure

  datatype Attempt = Attempt(number: int, state: AttemptState)

  /** The parameters whose hash an execution stores; the hash is idealised as
      the parameters themselves. */
  datatype Params = Params(
    requestId: string, stripeAccountId: string, environment: Environment, paymentKey: string,
    paymentIntentId: Option<string>, chargeId: Option<string>, amountMinor: int, currency: string, reason: string)

  datatype Environment = Live | Test | Sandbox

  datatype Execution = Execution(
    key: string, params: Params,
    refundId: Option<string>, refundStatus: Option<RefundStatus>, lastEventAt: Option<Time>,
    attempts: seq<Attempt>)

  function MaxNumber(attempts: seq<Attempt>): int {
    if attempts == [] then 0
    else Max(MaxNumber(attempts[..|attempts| - 1]), attempts[|attempts| - 1].number)
  }

  predicate Numbered(attempts: seq<Attempt>) {
    forall i | 0 <= i < |attempts| :: attempts[i].number == i + 1
  }

  lemma {:induction false} MaxOfNumbered(attempts: seq<Attempt>)
    requires Numbered(attempts)
    ensures MaxNumber(attempts) == |attempts|
  {
    if attempts != [] {
      MaxOfNumbered(attempts[..|attempts| - 1]);
    }
  }

  // ----------------------------------------------------- the revision check

  function ResolvedRevisionCost(state: AttemptState): Option<nat> {
    match state
    case RetryableFailure => Some(2)
    case AmbiguousFailure | Started => Some(4)
    case Completed | TerminalFailure => None
  }

  /** Total cost of resolved attempts, or None when one of them has no cost. */
  function RevisionCost(attempts: seq<Attempt>): Option<nat> {
    if attempts == [] then Some(0)
    else
      var before := RevisionCost(attempts[..|attempts| - 1]);
      var cost := ResolvedRevisionCost(attempts[|attempts| - 1].state);
      if before.None? || cost.None? then None else Some(before.value + cost.value)
  }

  predicate WellFormedAttempts(attempts: seq<Attempt>) {
    forall i | 0 <= i < |attempts| ::
      && attempts[i].number == i + 1
      && attempts[i].state != Completed
      && attempts[i].state != TerminalFailure
  }

  predicate Open(latest: AttemptState) { latest == Started || latest == AmbiguousFailure }

  /** Specification of the check the worker runs before trusting an approval. */
  predicate VersionIsCompatible(
    status: WorkflowStatus, effect: EffectState, version: int, execution: Option<Execution>, attested: int)
  {
    var delta := version - attested;
    if attested < 0 || version <= attested then false
    else if execution.None? then
      effect == NotStarted && ((status == Approved && delta == 1) || (status == Executing && delta == 2))
    else
      var attempts := execution.value.attempts;
      if execution.value.refundId.Some? || attempts == [] || !WellFormedAttempts(attempts) then false
      else
        var latest := attempts[|attempts| - 1].state;
        var prior := RevisionCost(attempts[..|attempts| - 1]);
        var all := RevisionCost(attempts);
        if status == Executing && effect == AbsenceProven then all == Some(delta - 2)
        else if prior.None? then false
        else if status == Executing && effect == Possible && latest == Started then delta == 3 + prior.value
        else if status == ReconciliationRequired && effect == Possible && Open(latest) then delta == 4 + prior.value
        else if status == ReconciliationRequired && effect == AbsenceProven && Open(latest) then delta == 5 + prior.value
        else false
  }

  lemma {:induction false} RevisionCostPrefix(attempts: seq<Attempt>, n: nat)
    requires n <= |attempts| && RevisionCost(attempts[..n]).None?
    ensures RevisionCost(attempts).None?
    decreases |attempts|
  {
    if n < |attempts| {
      assert attempts[..|attempts| - 1][..n] == attempts[..n];
      RevisionCostPrefix(attempts[..|attempts| - 1], n);
    } else {
      assert attempts[..n] == attempts;
    }
  }

  /** The first loop of the check: numbering and attempt states. */
  method AttemptsAreWellFormed(attempts: seq<Attempt>) returns (wellFormed: bool)
    ensures wellFormed == WellFormedAttempts(attempts)
  {
    for index := 0 to |attempts|
      invariant forall i | 0 <= i < index ::
          && attempts[i].number == i + 1
          && attempts[i].state != Completed
          && attempts[i].state != TerminalFailure
    {
      var attempt := attempts[index];
      if attempt.number != index + 1 || attempt.state == Completed || attempt.state == TerminalFailure {
        return false;
      }
    }
    return true;
  }

  /** The accumulating loops of the check. */
  method AccumulateRevisionCost(attempts: seq<Attempt>) returns (total: Option<nat>)
    ensures total == RevisionCost(attempts)
  {
    var sum := 0;
    for index := 0 to |attempts|
      invariant RevisionCost(attempts[..index]) == Some(sum)
    {
      assert attempts[..index + 1][..index] == attempts[..index];
      var cost := ResolvedRevisionCost(attempts[index].state);
      if cost.None? {
        RevisionCostPrefix(attempts, index + 1);
        return None;
      }
      sum := sum + cost.value;
    }
    assert attempts[..|attempts|] == attempts;
    return Some(sum);
  }

  /** The check as the worker runs it. */
  method ApprovalAttestationRequestVersionIsCompatible(
    status: WorkflowStatus, effect: EffectState, version: int, execution: Option<Execution>, attested: int)
    returns (compatible: bool)
    ensures compatible == VersionIsCompatible(status, effect, version, execution, attested)
  {
    if attested < 0 || version <= attested {
      return false;
    }
    var revisionDelta := version - attested;
    if execution.None? {
      return (status == Approved && effect == NotStarted && revisionDelta == 1)
          || (status == Executing && effect == NotStarted && revisionDelta == 2);
    }
    var attempts := execution.value.attempts;
    if execution.value.refundId.Some? || attempts == [] {
      return false;
    }
    var wellFormed := AttemptsAreWellFormed(attempts);
    if !wellFormed {
      return false;
    }
    var latest := attempts[|attempts| - 1];
    if status == Executing && effect == AbsenceProven {
      var all := AccumulateRevisionCost(attempts);
      return all.Some? && revisionDelta == 2 + all.value;
    }
    var prior := AccumulateRevisionCost(attempts[..|attempts| - 1]);
    if prior.None? {
      return false;
    }
    if status == Executing && effect == Possible && latest.state == Started {
      return revisionDelta == 3 + prior.value;
    }
    if status == ReconciliationRequired && effect == Possible && Open(latest.state) {
      return revisionDelta == 4 + prior.value;
    }
    if status == ReconciliationRequired && effect == AbsenceProven && Open(latest.state) {
      return revisionDelta == 5 + prior.value;
    }
    return false;
  }

  // ------------------------------------------------- closed form of the cost

  function CountRetryable(attempts: seq<Attempt>): nat {
    if attempts == [] then 0
    else CountRetryable(attempts[..|attempts| - 1])
         + if attempts[|attempts| - 1].state == RetryableFailure then 1 else 0
  }

  /** Four revisions an attempt, two saved by each retryable failure: the cost
      depends only on how many attempts of each kind there are. */
  lemma {:induction false} CostClosedForm(attempts: seq<Attempt>)
    requires WellFormedAttempts(attempts)
    ensures RevisionCost(attempts) == Some(4 * |attempts| - 2 * CountRetryable(attempts))
  {
    if attempts != [] {
      CostClosedForm(attempts[..|attempts| - 1]);
    }
  }

  lemma {:induction false} CountRetryableUpdate(attempts: seq<Attempt>, i: nat, a: Attempt)
    requires i < |attempts| && attempts[i].state == Started
    ensures CountRetryable(attempts[i := a]) == CountRetryable(attempts) + if a.state == RetryableFailure then 1 else 0
  {
    var n := |attempts| - 1;
    if i < n {
      CountRetryableUpdate(attempts[..n], i, a);
      assert attempts[i := a][..n] == attempts[..n][i := a];
    } else {
      assert attempts[i := a][..n] == attempts[..n];
    }
  }

  lemma CountRetryableAppend(attempts: seq<Attempt>, a: Attempt)
    ensures CountRetryable(attempts + [a]) == CountRetryable(attempts) + if a.state == RetryableFailure then 1 else 0
  {
    assert (attempts + [a])[..|attempts|] == attempts;
  }
}
