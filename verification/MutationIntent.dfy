/** The client's registry of mutation intents: one nonce per intent until it is
    completed or reset, and one mutation in flight at a time. */
module MutationIntent {
  import opened Prelude

  datatype Start = Busy | Failed | Started(nonce: string)

  datatype Registry = Registry(active: set<string>, nonces: map<string, string>)

  const EMPTY := Registry({}, map[])

  /** `created` is what the nonce factory would return; None when it throws. */
  datatype Call =
    | Begin(key: string, created: Option<string>)
    | Release(key: string)
    | Complete(key: string)
    | Reset(key: string)

  function BeginResult(r: Registry, key: string, created: Option<string>): Start {
    if r.active != {} then Busy
    else if key in r.nonces then Started(r.nonces[key])
    else if created.None? then Failed
    else Started(created.value)
  }

  function Next(r: Registry, c: Call): Registry {
    match c
    case Begin(key, created) =>
      (match BeginResult(r, key, created)
       case Started(nonce) => Registry(r.active + {key}, r.nonces[key := nonce])
       case _ => r)
    case Release(key) => r.(active := r.active - {key})
    case Complete(key) => Registry(r.active - {key}, r.nonces - {key})
    case Reset(key) => if key in r.active then r else r.(nonces := r.nonces - {key})
  }

  function RunCalls(r: Registry, calls: seq<Call>): Registry {
    if calls == [] then r else Next(RunCalls(r, calls[..|calls| - 1]), calls[|calls| - 1])
  }

  /** A call that may end the intent `key`. */
  predicate Ends(c: Call, key: string) { c == Complete(key) || c == Reset(key) }

  /** Once an intent has a nonce, every begin of it that starts, in any later
      run without a complete or reset of it, starts with that same nonce. */
  lemma {:induction false} IntentReusesNonce(r: Registry, calls: seq<Call>, key: string, created: Option<string>)
    requires key in r.nonces && forall i | 0 <= i < |calls| :: !Ends(calls[i], key)
    ensures var r' := RunCalls(r, calls);
            && key in r'.nonces && r'.nonces[key] == r.nonces[key]
            && (BeginResult(r', key, created) == Busy || BeginResult(r', key, created) == Started(r.nonces[key]))
  {
    if calls != [] {
      IntentReusesNonce(r, calls[..|calls| - 1], key, created);
    }
  }

  /** A reset cannot take the nonce of a mutation in flight. */
  lemma {:induction false} ActiveIntentSurvivesReset(r: Registry, calls: seq<Call>, key: string)
    requires key in r.active && key in r.nonces
    requires forall i | 0 <= i < |calls| :: calls[i] != Complete(key) && calls[i] != Release(key)
    ensures var r' := RunCalls(r, calls);
            key in r'.active && key in r'.nonces && r'.nonces[key] == r.nonces[key]
  {
    if calls != [] {
      ActiveIntentSurvivesReset(r, calls[..|calls| - 1], key);
    }
  }

  /** A failed mutation that is released and begun again is a retry under the
      same nonce; one that is completed, or reset while idle, is a new mutation
      under a new nonce. */
  lemma RetryOrRenew(r: Registry, key: string, nonce: string)
    requires r.active == {key} && key in r.nonces
    ensures BeginResult(Next(r, Release(key)), key, Some(nonce)) == Started(r.nonces[key])
    ensures BeginResult(Next(Next(r, Release(key)), Reset(key)), key, Some(nonce)) == Started(nonce)
    ensures BeginResult(Next(r, Complete(key)), key, Some(nonce)) == Started(nonce)
    ensures BeginResult(Next(Next(r, Reset(key)), Release(key)), key, Some(nonce)) == Started(r.nonces[key])
  {
  }

  /** The nonces the factory was asked for up to now. */
  function Drawn(r: Registry, calls: seq<Call>): set<string> {
    if calls == [] then r.nonces.Values
    else
      var before := RunCalls(r, calls[..|calls| - 1]);
      var c := calls[|calls| - 1];
      Drawn(r, calls[..|calls| - 1]) +
      if c.Begin? && BeginResult(before, c.key, c.created).Started? then {BeginResult(before, c.key, c.created).nonce} else {}
  }

  /** The factory never repeats a nonce. */
  predicate FreshNonces(calls: seq<Call>) {
    calls == []
    || (&& FreshNonces(calls[..|calls| - 1])
        && var c := calls[|calls| - 1];
           c.Begin? && c.created.Some? ==> c.created.value !in Drawn(EMPTY, calls[..|calls| - 1]))
  }

  /** Over every run: at most one mutation is in flight, each has its nonce, and
      no two intents ever hold the same nonce. */
  lemma {:induction false} EveryRunIsExclusive(calls: seq<Call>)
    requires FreshNonces(calls)
    ensures var r := RunCalls(EMPTY, calls);
            && (forall a, b | a in r.active && b in r.active :: a == b)
            && r.active <= r.nonces.Keys
            && (forall a, b | a in r.nonces && b in r.nonces && r.nonces[a] == r.nonces[b] :: a == b)
            && r.nonces.Values <= Drawn(EMPTY, calls)
  {
    if calls != [] {
      var before := calls[..|calls| - 1];
      EveryRunIsExclusive(before);
      var r, r', c := RunCalls(EMPTY, before), RunCalls(EMPTY, calls), calls[|calls| - 1];
      assert forall a | a in r.nonces :: r.nonces[a] in r.nonces.Values;
      forall n | n in r'.nonces.Values
        ensures n in Drawn(EMPTY, calls)
      {
        var k :| k in r'.nonces && r'.nonces[k] == n;
        assert k in r.nonces && r.nonces[k] == n ==> n in r.nonces.Values;
      }
    }
  }

  class MutationIntentRegistry {
    var activeKeys: set<string>
    var requestNonces: map<string, string>

    function Contents(): Registry
      reads this
    {
      Registry(activeKeys, requestNonces)
    }

    constructor ()
      ensures Contents() == EMPTY
    {
      activeKeys, requestNonces := {}, map[];
    }

    method BeginIntent(key: string, created: Option<string>) returns (start: Start)
      modifies this
      ensures start == BeginResult(old(Contents()), key, created)
      ensures Contents() == Next(old(Contents()), Begin(key, created))
      ensures start.Started? ==> old(activeKeys) == {} && activeKeys == {key} && requestNonces[key] == start.nonce
    {
      if |activeKeys| > 0 {
        return Busy;
      }
      var nonce := if key in requestNonces then Some(requestNonces[key]) else None;
      if nonce.None? {
        if created.None? {
          return Failed;
        }
        nonce := created;
      }
      requestNonces := requestNonces[key := nonce.value];
      activeKeys := activeKeys + {key};
      start := Started(nonce.value);
    }

    method ReleaseIntent(key: string)
      modifies this
      ensures Contents() == Next(old(Contents()), Release(key))
      ensures key in old(requestNonces) && old(activeKeys) <= {key} ==>
                forall created :: BeginResult(Contents(), key, created) == Started(old(requestNonces)[key])
    {
      activeKeys := activeKeys - {key};
    }

    method CompleteIntent(key: string)
      modifies this
      ensures Contents() == Next(old(Contents()), Complete(key))
      ensures old(activeKeys) <= {key} ==>
                forall nonce :: BeginResult(Contents(), key, Some(nonce)) == Started(nonce)
      ensures forall k | k in old(requestNonces) && k != key :: k in requestNonces && requestNonces[k] == old(requestNonces)[k]
    {
      activeKeys := activeKeys - {key};
      requestNonces := requestNonces - {key};
    }

    method ResetIntent(key: string)
      modifies this
      ensures Contents() == Next(old(Contents()), Reset(key))
      ensures key in old(activeKeys) ==> Contents() == old(Contents())
      ensures old(activeKeys) == {} ==>
                forall nonce :: BeginResult(Contents(), key, Some(nonce)) == Started(nonce)
    {
      if key !in activeKeys {
        requestNonces := requestNonces - {key};
      }
    }
  }
}
