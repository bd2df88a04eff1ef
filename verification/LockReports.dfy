// How withCaseLock ends, read off the events of a run: what the holder's callback was told and
// whether the function threw.
module LockReports {
  import opened Wrappers
  import opened CaseLock
  import opened LockRuns

  // A beat of the holder's timer that is refused or goes wrong.
  predicate BeatFails(s: LockWorld, e: LockEvent, node: nat, token: Token) {
    && e.Fire? && e.node == node
    && var running := BeatsOf(s.beats, node).running;
       && e.timer in running && running[e.timer].token == token
       && (e.fault != NoFault || Live(s.store, KEY, s.now) != Some(token))
  }

  ghost predicate FailsAt(events: seq<LockEvent>, i: nat, node: nat, token: Token)
    requires i < |events|
  {
    BeatFails(RunLock(events[..i]), events[i], node, token)
  }

  // A beat failed and its callback has not run since.
  ghost predicate Unanswered(events: seq<LockEvent>, node: nat, token: Token) {
    exists i :: 0 <= i < |events| && FailsAt(events, i, node, token)
             && forall k :: i < k < |events| ==> events[k] != Notice(node, token)
  }

  // The callback has run, after a beat that failed.
  ghost predicate Told(events: seq<LockEvent>, token: Token) {
    exists j :: 0 <= j < |events| && events[j].Notice? && events[j].token == token
             && Unanswered(events[..j], events[j].node, token)
  }

  lemma FailsAtAppend(events: seq<LockEvent>, e: LockEvent, i: nat, node: nat, token: Token)
    requires i < |events|
    ensures FailsAt(events + [e], i, node, token) <==> FailsAt(events, i, node, token)
  {
    assert (events + [e])[..i] == events[..i];
  }

  lemma UnansweredAppend(events: seq<LockEvent>, e: LockEvent, node: nat, token: Token)
    ensures Unanswered(events + [e], node, token) <==>
              FailsAt(events + [e], |events|, node, token) || (Unanswered(events, node, token) && e != Notice(node, token))
  {
    var all := events + [e];
    if Unanswered(all, node, token) {
      var i :| 0 <= i < |all| && FailsAt(all, i, node, token) && forall k :: i < k < |all| ==> all[k] != Notice(node, token);
      if i < |events| {
        FailsAtAppend(events, e, i, node, token);
        assert all[|events|] == e && forall k :: i < k < |events| ==> events[k] == all[k];
      }
    }
    if Unanswered(events, node, token) && e != Notice(node, token) {
      var i :| 0 <= i < |events| && FailsAt(events, i, node, token) && forall k :: i < k < |events| ==> events[k] != Notice(node, token);
      FailsAtAppend(events, e, i, node, token);
    }
  }

  lemma ToldAppend(events: seq<LockEvent>, e: LockEvent, token: Token)
    ensures Told(events + [e], token) <==>
              Told(events, token) || (e.Notice? && e.token == token && Unanswered(events, e.node, token))
  {
    var all := events + [e];
    assert all[..|events|] == events && all[|events|] == e;
    assert forall j :: 0 <= j < |events| ==> all[..j] == events[..j] && all[j] == events[j];
  }

  // The machine's record of failures and losses says what happened.
  ghost predicate Recorded(events: seq<LockEvent>) {
    var s := RunLock(events);
    && (forall node: nat, token :: (node, token) in s.failing <==> Unanswered(events, node, token))
    && (forall node: nat, token :: (node, token) in s.failing ==> !Fresh(s, token))
    && (forall token :: Told(events, token) ==> !Fresh(s, token))
    && (forall token :: token in s.bodies ==> (s.bodies[token].lost <==> Told(events, token)))
  }

  lemma FailingAfter(s: LockWorld, e: LockEvent, node: nat, token: Token)
    requires LockInv(s)
    ensures (node, token) in NextLock(s, e).failing <==>
              BeatFails(s, e, node, token) || ((node, token) in s.failing && e != Notice(node, token))
  {
    if e.Fire? && e.timer in BeatsOf(s.beats, e.node).running {
      assert TimerOk(s, e.node, e.timer);
    }
  }

  lemma FailingStep(events: seq<LockEvent>, e: LockEvent, node: nat, token: Token)
    requires LockInv(RunLock(events))
    requires (node, token) in RunLock(events).failing <==> Unanswered(events, node, token)
    ensures (node, token) in RunLock(events + [e]).failing <==> Unanswered(events + [e], node, token)
  {
    assert (events + [e])[..|events|] == events && (events + [e])[|events|] == e;
    UnansweredAppend(events, e, node, token);
    FailingAfter(RunLock(events), e, node, token);
  }

  lemma FreshStep(s: LockWorld, e: LockEvent, token: Token)
    ensures !Fresh(s, token) ==> !Fresh(NextLock(s, e), token)
  {
  }

  lemma NewFailureIsKnown(s: LockWorld, e: LockEvent, node: nat, token: Token)
    requires LockInv(s) && (node, token) in NextLock(s, e).failing
    ensures (node, token) in s.failing || !Fresh(s, token)
  {
    if e.Fire? && e.timer in BeatsOf(s.beats, e.node).running {
      assert TimerOk(s, e.node, e.timer);
    }
  }

  lemma LostStep(s: LockWorld, e: LockEvent, token: Token)
    requires token in NextLock(s, e).bodies
    ensures token in s.bodies ==>
              (NextLock(s, e).bodies[token].lost <==>
                 s.bodies[token].lost || (e.Notice? && e.token == token && (e.node, token) in s.failing))
    ensures token !in s.bodies ==> Fresh(s, token) && !NextLock(s, e).bodies[token].lost && e.Enter?
  {
  }

  lemma {:induction false} RunsAreRecorded(events: seq<LockEvent>)
    ensures Recorded(events)
  {
    if events == [] {
    } else {
      var prefix, e := events[..|events| - 1], events[|events| - 1];
      assert events == prefix + [e];
      RunsAreRecorded(prefix);
      RunLockInv(prefix);
      var s := RunLock(prefix);
      forall node: nat, token
        ensures (node, token) in RunLock(events).failing <==> Unanswered(events, node, token)
        ensures (node, token) in RunLock(events).failing ==> !Fresh(RunLock(events), token)
      {
        FailingStep(prefix, e, node, token);
        FreshStep(s, e, token);
        if (node, token) in RunLock(events).failing {
          NewFailureIsKnown(s, e, node, token);
        }
      }
      forall token
        ensures Told(events, token) ==> !Fresh(RunLock(events), token)
        ensures token in RunLock(events).bodies ==> (RunLock(events).bodies[token].lost <==> Told(events, token))
      {
        ToldAppend(prefix, e, token);
        FreshStep(s, e, token);
        if token in RunLock(events).bodies {
          LostStep(s, e, token);
        }
      }
    }
  }

  // withCaseLock throws the function's error if it threw; otherwise it reports the lost lock
  // if, before the function returned, a beat of its timer had failed and the callback had run;
  // otherwise it returns the result. The event is the one that ended the body.
  lemma {:induction false} ResultExactly(events: seq<LockEvent>, token: Token) returns (f: nat)
    requires token in RunLock(events).results
    ensures f < |events| && events[f].Finish? && events[f].token == token && token in RunLock(events[..f]).bodies
    ensures RunLock(events).results[token] ==
            if events[f].threw then Threw
            else if Told(events[..f], token) then RaisedOwnershipLost
            else Returned
  {
    var n := |events| - 1;
    var prefix, s := events[..n], RunLock(events[..n]);
    RunLockInv(prefix);
    if token in s.results {
      f := ResultExactly(prefix, token);
      assert events[..f] == prefix[..f];
      ResultsStay(s, events[n], token);
    } else {
      f := n;
      RunsAreRecorded(prefix);
    }
  }

  lemma ResultsStay(s: LockWorld, e: LockEvent, token: Token)
    requires LockInv(s) && token in s.results
    ensures token in NextLock(s, e).results && NextLock(s, e).results[token] == s.results[token]
  {
    if e.Finish? && e.token in s.bodies {
      assert BodyOk(s, e.token);
    }
  }
}
