// The guard that turns away a repeated idempotency key, and the guard that would remember
// every key it accepted.
module IdempotencyKeys {
  import opened Wrappers

  const TTL_MS := 60000

  type Keys = map<string, int>

  // A request without the header, or with an empty one, carries no key.
  datatype Request = Request(key: Option<string>, now: int)

  predicate HasKey(r: Request) {
    r.key.Some? && r.key.value != ""
  }

  function EvictStale(keys: Keys, now: int): Keys {
    map key | key in keys && now - keys[key] <= TTL_MS :: keys[key]
  }

  function Admit(keys: Keys, r: Request): (Keys, bool) {
    if !HasKey(r) then (keys, true)
    else
      var kept := EvictStale(keys, r.now);
      if r.key.value in kept then (kept, false) else (kept[r.key.value := r.now], true)
  }

  class IdempotencyGuard {
    var processedKeys: Keys

    constructor ()
      ensures processedKeys == map[]
    {
      processedKeys := map[];
    }

    method CanActivate(r: Request) returns (allowed: bool)
      modifies this
      ensures (processedKeys, allowed) == Admit(old(processedKeys), r)
    {
      if !HasKey(r) {
        return true;
      }
      Evict(r.now);
      if r.key.value in processedKeys {
        return false;
      }
      processedKeys := processedKeys[r.key.value := r.now];
      allowed := true;
    }

    method Evict(now: int)
      modifies this
      ensures processedKeys == EvictStale(old(processedKeys), now)
    {
      var todo := processedKeys.Keys;
      ghost var before := processedKeys;
      while todo != {}
        invariant todo <= before.Keys
        invariant forall key :: key in processedKeys <==>
                    key in before && (key in todo || now - before[key] <= TTL_MS)
        invariant forall key :: key in processedKeys ==> processedKeys[key] == before[key]
        decreases todo
      {
        var key :| key in todo;
        todo := todo - {key};
        if now - processedKeys[key] > TTL_MS {
          processedKeys := processedKeys - {key};
        }
      }
    }
  }

  // ---- The guard with the full log ----------------------------------------------------------

  // The key was accepted at most the time to live before now.
  ghost predicate AcceptedRecently(log: seq<Request>, key: string, now: int) {
    exists i :: 0 <= i < |log| && log[i].key == Some(key) && now - log[i].now <= TTL_MS
  }

  function After(requests: seq<Request>): Keys {
    if requests == [] then map[] else Admit(After(requests[..|requests| - 1]), requests[|requests| - 1]).0
  }

  // The requests with a key that were accepted.
  function Log(requests: seq<Request>): seq<Request> {
    if requests == [] then []
    else
      var n := |requests| - 1;
      var r := requests[n];
      if HasKey(r) && Admit(After(requests[..n]), r).1 then Log(requests[..n]) + [r] else Log(requests[..n])
  }

  ghost predicate ClockGoesForward(requests: seq<Request>) {
    forall i, j :: 0 <= i < j < |requests| ==> requests[i].now <= requests[j].now
  }

  // Whatever the map keeps was accepted then, and whatever it lost is too old from now on.
  ghost predicate Remembers(keys: Keys, log: seq<Request>, now: int) {
    && (forall key :: key in keys ==> exists i :: 0 <= i < |log| && log[i].key == Some(key) && log[i].now == keys[key])
    && (forall i :: 0 <= i < |log| && log[i].key.Some? ==>
          (log[i].key.value in keys && log[i].now <= keys[log[i].key.value]) || now - log[i].now > TTL_MS)
  }

  lemma EvictedExactly(keys: Keys, log: seq<Request>, key: string, now: int)
    requires Remembers(keys, log, now)
    ensures key in EvictStale(keys, now) <==> AcceptedRecently(log, key, now)
  {
    if key in EvictStale(keys, now) {
      var i :| 0 <= i < |log| && log[i].key == Some(key) && log[i].now == keys[key];
    }
  }

  lemma LaterToo(keys: Keys, log: seq<Request>, now: int, later: int)
    requires Remembers(keys, log, now) && now <= later
    ensures Remembers(keys, log, later)
  {
  }

  lemma StepRemembers(keys: Keys, log: seq<Request>, r: Request)
    requires Remembers(keys, log, r.now)
    ensures var (keys', allowed) := Admit(keys, r);
            Remembers(keys', if HasKey(r) && allowed then log + [r] else log, r.now)
  {
    var (keys', allowed) := Admit(keys, r);
    if HasKey(r) {
      var log' := if allowed then log + [r] else log;
      assert forall i :: 0 <= i < |log| ==> log'[i] == log[i];
      forall key | key in keys'
        ensures exists i :: 0 <= i < |log'| && log'[i].key == Some(key) && log'[i].now == keys'[key]
      {
        if allowed && key == r.key.value {
          assert log'[|log|] == r;
        } else {
          var i :| 0 <= i < |log| && log[i].key == Some(key) && log[i].now == keys[key];
          assert log'[i] == log[i];
        }
      }
      if allowed {
        EvictedExactly(keys, log, r.key.value, r.now);
      }
    }
  }

  lemma {:induction false} MapRemembers(requests: seq<Request>, now: int)
    requires ClockGoesForward(requests) && (requests != [] ==> requests[|requests| - 1].now <= now)
    ensures Remembers(After(requests), Log(requests), now)
  {
    if requests == [] {
    } else {
      var n := |requests| - 1;
      MapRemembers(requests[..n], requests[n].now);
      StepRemembers(After(requests[..n]), Log(requests[..n]), requests[n]);
      LaterToo(After(requests), Log(requests), requests[n].now, now);
    }
  }

  // With a clock that does not go back, a key is turned away exactly when the full log shows
  // it accepted at most a minute ago; a request without a key always passes.
  lemma RejectsExactlyRepeats(requests: seq<Request>, r: Request)
    requires ClockGoesForward(requests + [r])
    ensures Admit(After(requests), r).1 <==> !(HasKey(r) && AcceptedRecently(Log(requests), r.key.value, r.now))
  {
    assert forall i :: 0 <= i < |requests| ==> (requests + [r])[i] == requests[i];
    assert (requests + [r])[|requests|] == r;
    MapRemembers(requests, r.now);
    if HasKey(r) {
      EvictedExactly(After(requests), Log(requests), r.key.value, r.now);
    }
  }

  // Of two requests with a key and none in between, the second one is turned away up to sixty seconds
  // after the first, and not later. A request without a key, or with an empty one, always passes and
  // leaves no trace.
  lemma ExactlyAMinute(keys: Keys, key: string, now: int, elapsed: nat)
    requires key != "" && key !in EvictStale(keys, now)
    ensures var (after, first) := Admit(keys, Request(Some(key), now));
            first && (Admit(after, Request(Some(key), now + elapsed)).1 <==> elapsed > 60000)
    ensures Admit(keys, Request(None, now)) == Admit(keys, Request(Some(""), now)) == (keys, true)
  {
  }

  // Two acceptances of one key are more than a minute apart.
  lemma {:induction false} AcceptancesAreApart(requests: seq<Request>, i: nat, j: nat)
    requires ClockGoesForward(requests)
    requires i < j < |Log(requests)| && Log(requests)[i].key == Log(requests)[j].key
    ensures Log(requests)[j].now - Log(requests)[i].now > TTL_MS
  {
    var n := |requests| - 1;
    var r, log := requests[n], Log(requests[..n]);
    if j < |log| {
      AcceptancesAreApart(requests[..n], i, j);
    } else {
      LoggedHaveKeys(requests);
      assert requests[..n] + [r] == requests;
      RejectsExactlyRepeats(requests[..n], r);
    }
  }

  lemma {:induction false} LoggedHaveKeys(requests: seq<Request>)
    ensures forall r :: r in Log(requests) ==> HasKey(r)
  {
    if requests == [] {
    } else {
      LoggedHaveKeys(requests[..|requests| - 1]);
    }
  }

  // ---- Any clock ----------------------------------------------------------------------------

  // The i-th request was accepted with its key, and no request with a key has come since, more than
  // a minute later by its own time.
  ghost predicate Kept(requests: seq<Request>, i: nat) {
    && i < |requests| && HasKey(requests[i]) && Admit(After(requests[..i]), requests[i]).1
    && forall j :: i < j < |requests| && HasKey(requests[j]) ==> requests[j].now - requests[i].now <= TTL_MS
  }

  lemma KeptAppend(requests: seq<Request>, r: Request, i: nat)
    ensures Kept(requests + [r], i) <==>
              (Kept(requests, i) && (HasKey(r) ==> r.now - requests[i].now <= TTL_MS))
              || (i == |requests| && HasKey(r) && Admit(After(requests), r).1)
  {
    var all := requests + [r];
    assert forall j :: 0 <= j < |requests| ==> all[j] == requests[j];
    if i < |requests| {
      assert all[..i] == requests[..i];
      assert all[|requests|] == r;
    } else if i == |requests| {
      assert all[..i] == requests;
    }
  }

  // The map holds the keys of these requests, with their times, and no others.
  ghost predicate HoldsTheKept(keys: Keys, requests: seq<Request>) {
    && (forall i :: 0 <= i < |requests| && Kept(requests, i) ==>
          requests[i].key.value in keys && keys[requests[i].key.value] == requests[i].now)
    && (forall key :: key in keys ==> exists i :: 0 <= i < |requests| && Kept(requests, i) && requests[i].key == Some(key))
  }

  lemma KeptIsHeld(requests: seq<Request>, r: Request, i: nat)
    requires HoldsTheKept(After(requests), requests) && Kept(requests + [r], i)
    ensures var keys := Admit(After(requests), r).0;
            var kept := (requests + [r])[i];
            kept.key.value in keys && keys[kept.key.value] == kept.now
  {
    KeptAppend(requests, r, i);
  }

  lemma HeldIsKept(requests: seq<Request>, r: Request, key: string) returns (i: nat)
    requires HoldsTheKept(After(requests), requests) && key in Admit(After(requests), r).0
    ensures Kept(requests + [r], i) && (requests + [r])[i].key == Some(key)
  {
    if HasKey(r) && key == r.key.value && Admit(After(requests), r).1 {
      i := |requests|;
    } else {
      i :| 0 <= i < |requests| && Kept(requests, i) && requests[i].key == Some(key);
    }
    KeptAppend(requests, r, i);
  }

  lemma StepHolds(requests: seq<Request>, r: Request)
    requires HoldsTheKept(After(requests), requests)
    ensures HoldsTheKept(Admit(After(requests), r).0, requests + [r])
  {
    var keys, all := Admit(After(requests), r).0, requests + [r];
    forall i: nat | i < |all| && Kept(all, i)
      ensures all[i].key.value in keys && keys[all[i].key.value] == all[i].now
    {
      KeptIsHeld(requests, r, i);
    }
    forall key | key in keys
      ensures exists i :: 0 <= i < |all| && Kept(all, i) && all[i].key == Some(key)
    {
      var i := HeldIsKept(requests, r, key);
    }
  }

  lemma {:induction false} MapHoldsTheKept(requests: seq<Request>)
    ensures HoldsTheKept(After(requests), requests)
  {
    if requests == [] {
    } else {
      var n := |requests| - 1;
      MapHoldsTheKept(requests[..n]);
      StepHolds(requests[..n], requests[n]);
      assert requests[..n] + [requests[n]] == requests;
    }
  }

  // By any clock, a request is turned away exactly when its key was accepted before and no request
  // with a key since then, this one included, was more than a minute later.
  lemma RejectsExactly(requests: seq<Request>, r: Request)
    ensures !Admit(After(requests), r).1 <==>
              HasKey(r) && exists i :: 0 <= i < |requests| && Kept(requests, i)
                                    && requests[i].key == r.key && r.now - requests[i].now <= TTL_MS
  {
    MapHoldsTheKept(requests);
  }

  lemma OneMore(requests: seq<Request>, r: Request)
    ensures After(requests + [r]) == Admit(After(requests), r).0
    ensures Log(requests + [r]) == Log(requests) + if HasKey(r) && Admit(After(requests), r).1 then [r] else []
  {
    assert (requests + [r])[..|requests|] == requests;
  }

  const EARLY := Request(Some("a"), 0)
  const LATE := Request(Some("b"), 70000)

  lemma EarlyIsLogged()
    ensures After([EARLY]) == map["a" := 0] && Log([EARLY]) == [EARLY]
  {
    OneMore([], EARLY);
    assert [] + [EARLY] == [EARLY];
  }

  lemma LateEvicts()
    ensures Admit(map["a" := 0], LATE) == (map["b" := 70000], true)
  {
    assert EvictStale(map["a" := 0], 70000) == map[];
  }

  // A clock that goes forward and back again makes the guard forget: a key is accepted twice within
  // ten milliseconds.
  lemma BackwardClockForgets()
    ensures exists requests, r :: HasKey(r) && AcceptedRecently(Log(requests), r.key.value, r.now) && Admit(After(requests), r).1
  {
    var requests, again := [EARLY] + [LATE], Request(Some("a"), 10);
    EarlyIsLogged();
    LateEvicts();
    OneMore([EARLY], LATE);
    assert Log(requests)[0] == EARLY;
    assert HasKey(again) && AcceptedRecently(Log(requests), again.key.value, again.now);
  }
}
