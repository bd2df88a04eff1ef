// Timed runs of the lock of one case: any number of withCaseLock bodies and orphan
// recoveries in any number of processes, with a clock, heartbeat timers, Redis faults,
// callbacks and releases in flight.
module LockRuns {
  import opened Wrappers
  import opened CaseLock

  const KEY: Key := FormatKey("", "case")

  // The function running under the lock; lastBeat is when Redis last set or renewed the key
  // for it.
  datatype Body = Body(node: nat, handle: Handle, lastBeat: int, heartbeat: bool, lost: bool) {
    function LeaseEnd(): int { lastBeat + handle.ttlMs }
  }

  // How withCaseLock ends: with the function's result, with the error of a lost lock, or with
  // the function's own error.
  datatype Outcome = Returned | RaisedOwnershipLost | Threw

  datatype LockWorld = LockWorld(
    now: int,
    store: Store,
    beats: map<nat, Beats>,            // the timers of each process
    nextTimer: TimerId,
    bodies: map<Token, Body>,          // the bodies that have not finished
    failing: set<(nat, Token)>,        // renewals answered badly, callback not yet run
    results: map<Token, Outcome>,      // the bodies that have finished
    releasing: set<Token>,             // finished bodies whose release is on its way to Redis
    dropped: set<Token>,               // finished bodies whose release did not get there
    unheard: set<Token>                // tokens set for callers that did not get the answer
  )

  const START := LockWorld(0, map[], map[], 0, map[], {}, map[], {}, {}, {})

  datatype Fault = NoFault | NotReached | AnswerLost

  datatype LockEvent =
    | Pass(ms: nat)
    | Enter(node: nat, token: Token, ttlMs: int, heartbeat: bool, answered: bool)
    | Fire(node: nat, timer: TimerId, fault: Fault)
    | Notice(node: nat, token: Token)
    | Finish(token: Token, threw: bool)     // the function has returned or thrown
    | Deliver(token: Token, reached: bool)  // the release of a finished body, if Redis is reached

  function BeatsOf(beats: map<nat, Beats>, node: nat): Beats {
    if node in beats then beats[node] else NO_BEATS
  }

  // Tokens are random: one that was used before never comes again.
  predicate Fresh(s: LockWorld, token: Token) {
    token !in s.bodies && token !in s.results && token !in s.unheard
  }

  // When the answer to the SET does not arrive, the acquisition throws: there is no body, no timer
  // and no release, but the key may be set.
  function DoEnter(s: LockWorld, node: nat, token: Token, ttlMs: int, heartbeat: bool, answered: bool): LockWorld {
    var (store, reply) := SetIfAbsent(s.store, KEY, token, ttlMs, s.now);
    if !Fresh(s, token) || reply != SetOk then s
    else if !answered then s.(store := store, unheard := s.unheard + {token})
    else
      var handle := Handle(KEY, token, ttlMs);
      s.(store := store,
         bodies := s.bodies[token := Body(node, handle, s.now, heartbeat, false)],
         beats := if heartbeat then s.beats[node := Start(BeatsOf(s.beats, node), handle, s.nextTimer)] else s.beats,
         nextTimer := s.nextTimer + 1)
  }

  function DoFire(s: LockWorld, node: nat, timer: TimerId, fault: Fault): LockWorld {
    if timer !in BeatsOf(s.beats, node).running then s
    else
      var handle := BeatsOf(s.beats, node).running[timer];
      var (store, renewed) := RenewScript(s.store, handle.key, handle.token, handle.ttlMs, s.now);
      var reached := fault != NotReached;
      s.(store := if reached then store else s.store,
         bodies := if reached && renewed && handle.token in s.bodies
                   then s.bodies[handle.token := s.bodies[handle.token].(lastBeat := s.now)] else s.bodies,
         failing := if fault != NoFault || !renewed then s.failing + {(node, handle.token)} else s.failing)
  }

  function DoNotice(s: LockWorld, node: nat, token: Token): LockWorld {
    if (node, token) !in s.failing then s
    else
      s.(failing := s.failing - {(node, token)},
         beats := s.beats[node := Stop(BeatsOf(s.beats, node), KEY)],
         bodies := if token in s.bodies then s.bodies[token := s.bodies[token].(lost := true)] else s.bodies)
  }

  // The release is sent in any case.
  function DoFinish(s: LockWorld, token: Token, threw: bool): LockWorld {
    if token !in s.bodies then s
    else
      var body := s.bodies[token];
      s.(results := s.results[token := if threw then Threw else if body.lost then RaisedOwnershipLost else Returned],
         releasing := s.releasing + {token},
         bodies := s.bodies - {token},
         beats := if body.heartbeat then s.beats[body.node := Stop(BeatsOf(s.beats, body.node), KEY)] else s.beats)
  }

  function NextLock(s: LockWorld, event: LockEvent): LockWorld {
    match event
    case Pass(ms) => s.(now := s.now + ms)
    case Enter(node, token, ttlMs, heartbeat, answered) => DoEnter(s, node, token, ttlMs, heartbeat, answered)
    case Fire(node, timer, fault) => DoFire(s, node, timer, fault)
    case Notice(node, token) => DoNotice(s, node, token)
    case Finish(token, threw) => DoFinish(s, token, threw)
    case Deliver(token, reached) =>
      if token !in s.releasing then s
      else if reached then s.(releasing := s.releasing - {token}, store := ReleaseScript(s.store, KEY, token, s.now).0)
      else s.(releasing := s.releasing - {token}, dropped := s.dropped + {token})
  }

  function RunLock(events: seq<LockEvent>): LockWorld {
    if events == [] then START else NextLock(RunLock(events[..|events| - 1]), events[|events| - 1])
  }

  // ---- Leases --------------------------------------------------------------------------

  predicate Leased(s: LockWorld, token: Token)
    requires token in s.bodies
  {
    s.now < s.bodies[token].LeaseEnd()
  }

  predicate BodyOk(s: LockWorld, token: Token)
    requires token in s.bodies
  {
    var b := s.bodies[token];
    && b.handle == Handle(KEY, token, b.handle.ttlMs) && b.handle.ttlMs > 0
    && token !in s.results
    && (Leased(s, token) ==> KEY in s.store && s.store[KEY] == Stored(token, b.LeaseEnd()))
  }

  predicate TimerOk(s: LockWorld, node: nat, id: TimerId)
    requires id in BeatsOf(s.beats, node).running
  {
    var handle := BeatsOf(s.beats, node).running[id];
    && id < s.nextTimer
    && handle.key == KEY && handle.ttlMs > 0
    && !Fresh(s, handle.token)
    && (handle.token in s.bodies ==>
          var body := s.bodies[handle.token];
          body.handle == handle && body.node == node && body.heartbeat)
  }

  // A lock that has not expired is held, or its release is owed, or nobody knows of it.
  predicate Accounted(s: LockWorld, token: Token) {
    token in s.bodies || token in s.releasing || token in s.dropped || token in s.unheard
  }

  predicate StoreOk(s: LockWorld) {
    KEY in s.store ==>
      var token := s.store[KEY].token;
      && !Fresh(s, token)
      && (token in s.bodies ==> s.store[KEY].expiresAt == s.bodies[token].LeaseEnd())
      && (s.now < s.store[KEY].expiresAt ==> Accounted(s, token))
  }

  ghost predicate LockInv(s: LockWorld) {
    && StoreOk(s)
    && (forall token :: token in s.bodies ==> BodyOk(s, token))
    && (forall node, id :: id in BeatsOf(s.beats, node).running ==> TimerOk(s, node, id))
    && (forall node :: OneTimerPerKey(BeatsOf(s.beats, node)))
    && (forall token :: token in s.releasing + s.dropped ==> token in s.results)
  }

  lemma EnterKeepsTimers(s: LockWorld, node: nat, token: Token, ttlMs: int, heartbeat: bool, answered: bool)
    requires LockInv(s)
    ensures var t := DoEnter(s, node, token, ttlMs, heartbeat, answered);
            forall n :: OneTimerPerKey(BeatsOf(t.beats, n))
  {
    assert s.nextTimer !in BeatsOf(s.beats, node).running;
    StartKeepsOneTimer(BeatsOf(s.beats, node), Handle(KEY, token, ttlMs), s.nextTimer);
    forall n
      ensures OneTimerPerKey(BeatsOf(DoEnter(s, node, token, ttlMs, heartbeat, answered).beats, n))
    {
      assert OneTimerPerKey(BeatsOf(s.beats, n));
    }
  }

  lemma EnterKeepsHandles(s: LockWorld, node: nat, token: Token, ttlMs: int, heartbeat: bool, answered: bool, n: nat, id: TimerId)
    requires LockInv(s)
    requires id in BeatsOf(DoEnter(s, node, token, ttlMs, heartbeat, answered).beats, n).running
    ensures TimerOk(DoEnter(s, node, token, ttlMs, heartbeat, answered), n, id)
  {
    var t := DoEnter(s, node, token, ttlMs, heartbeat, answered);
    if !(t != s && answered && n == node && heartbeat && id == s.nextTimer) {
      assert id in BeatsOf(s.beats, n).running;
      assert TimerOk(s, n, id);
    }
  }

  lemma EnterKeeps(s: LockWorld, node: nat, token: Token, ttlMs: int, heartbeat: bool, answered: bool)
    requires LockInv(s)
    ensures LockInv(DoEnter(s, node, token, ttlMs, heartbeat, answered))
  {
    var t := DoEnter(s, node, token, ttlMs, heartbeat, answered);
    EnterKeepsTimers(s, node, token, ttlMs, heartbeat, answered);
    forall n, id | id in BeatsOf(t.beats, n).running
      ensures TimerOk(t, n, id)
    {
      EnterKeepsHandles(s, node, token, ttlMs, heartbeat, answered, n, id);
    }
    if t != s {
      forall tok | tok in t.bodies
        ensures BodyOk(t, tok)
      {
        assert tok == token || BodyOk(s, tok);
      }
    }
  }

  lemma FireKeeps(s: LockWorld, node: nat, timer: TimerId, fault: Fault)
    requires LockInv(s)
    ensures LockInv(DoFire(s, node, timer, fault))
  {
    var t := DoFire(s, node, timer, fault);
    if timer in BeatsOf(s.beats, node).running {
      assert TimerOk(s, node, timer);
      forall tok | tok in t.bodies
        ensures BodyOk(t, tok)
      {
        assert BodyOk(s, tok);
      }
      forall n, id | id in BeatsOf(t.beats, n).running
        ensures TimerOk(t, n, id)
      {
        assert TimerOk(s, n, id);
      }
    }
  }

  // Stopping the timer of the key in one process.
  lemma StopKeepsTimers(s: LockWorld, t: LockWorld, node: nat)
    requires LockInv(s)
    requires t.beats == s.beats[node := Stop(BeatsOf(s.beats, node), KEY)] && t.nextTimer == s.nextTimer
    requires forall token :: Fresh(t, token) ==> Fresh(s, token)
    requires forall token :: token in t.bodies ==>
               token in s.bodies && t.bodies[token].handle == s.bodies[token].handle && t.bodies[token].node == s.bodies[token].node
               && t.bodies[token].heartbeat == s.bodies[token].heartbeat
    ensures forall n, id :: id in BeatsOf(t.beats, n).running ==> TimerOk(t, n, id)
    ensures forall n :: OneTimerPerKey(BeatsOf(t.beats, n))
  {
    StopKeepsOneTimer(BeatsOf(s.beats, node), KEY);
    forall n
      ensures OneTimerPerKey(BeatsOf(t.beats, n))
    {
      assert OneTimerPerKey(BeatsOf(s.beats, n));
    }
    forall n, id | id in BeatsOf(t.beats, n).running
      ensures TimerOk(t, n, id)
    {
      assert TimerOk(s, n, id);
    }
  }

  lemma NoticeKeeps(s: LockWorld, node: nat, token: Token)
    requires LockInv(s)
    ensures LockInv(DoNotice(s, node, token))
  {
    var t := DoNotice(s, node, token);
    if (node, token) in s.failing {
      StopKeepsTimers(s, t, node);
      forall tok | tok in t.bodies
        ensures BodyOk(t, tok)
      {
        assert BodyOk(s, tok);
      }
    }
  }

  lemma FinishKeeps(s: LockWorld, token: Token, threw: bool)
    requires LockInv(s)
    ensures LockInv(DoFinish(s, token, threw))
  {
    var t := DoFinish(s, token, threw);
    if token in s.bodies {
      var body := s.bodies[token];
      assert BodyOk(s, token);
      if body.heartbeat {
        StopKeepsTimers(s, t, body.node);
      } else {
        forall n, id | id in BeatsOf(t.beats, n).running
          ensures TimerOk(t, n, id)
        {
          assert TimerOk(s, n, id);
        }
      }
      forall tok | tok in t.bodies
        ensures BodyOk(t, tok)
      {
        assert BodyOk(s, tok);
      }
    }
  }

  // Nothing changes but the clock, the stored lock and the releases.
  predicate SameHolders(s: LockWorld, t: LockWorld) {
    t == s.(now := t.now, store := t.store, releasing := t.releasing, dropped := t.dropped)
  }

  lemma TimersKeep(s: LockWorld, t: LockWorld)
    requires LockInv(s) && SameHolders(s, t)
    ensures forall n, id :: id in BeatsOf(t.beats, n).running ==> TimerOk(t, n, id)
  {
    forall n, id | id in BeatsOf(t.beats, n).running
      ensures TimerOk(t, n, id)
    {
      assert TimerOk(s, n, id);
    }
  }

  lemma PassKeeps(s: LockWorld, ms: nat)
    requires LockInv(s)
    ensures LockInv(NextLock(s, Pass(ms)))
  {
    var t := NextLock(s, Pass(ms));
    TimersKeep(s, t);
    forall tok | tok in t.bodies
      ensures BodyOk(t, tok)
    {
      assert BodyOk(s, tok);
    }
  }

  lemma DeliverKeeps(s: LockWorld, token: Token, reached: bool)
    requires LockInv(s)
    ensures LockInv(NextLock(s, Deliver(token, reached)))
  {
    var t := NextLock(s, Deliver(token, reached));
    TimersKeep(s, t);
    forall tok | tok in t.bodies
      ensures BodyOk(t, tok)
    {
      assert BodyOk(s, tok);
    }
  }

  lemma NextLockKeeps(s: LockWorld, event: LockEvent)
    requires LockInv(s)
    ensures LockInv(NextLock(s, event))
  {
    match event
    case Enter(node, token, ttlMs, heartbeat, answered) => EnterKeeps(s, node, token, ttlMs, heartbeat, answered);
    case Fire(node, timer, fault) => FireKeeps(s, node, timer, fault);
    case Notice(node, token) => NoticeKeeps(s, node, token);
    case Finish(token, threw) => FinishKeeps(s, token, threw);
    case Pass(ms) => PassKeeps(s, ms);
    case Deliver(token, reached) => DeliverKeeps(s, token, reached);
  }

  lemma {:induction false} RunLockInv(events: seq<LockEvent>)
    ensures LockInv(RunLock(events))
  {
    if events == [] {
    } else {
      RunLockInv(events[..|events| - 1]);
      NextLockKeeps(RunLock(events[..|events| - 1]), events[|events| - 1]);
    }
  }

  // ---- Mutual exclusion ------------------------------------------------------------------

  // At every moment of every run at most one body has an unexpired lease, and the stored
  // token is its own.
  lemma AtMostOneLease(events: seq<LockEvent>, a: Token, b: Token)
    requires var s := RunLock(events);
             a in s.bodies && b in s.bodies && Leased(s, a) && Leased(s, b)
    ensures a == b && Live(RunLock(events).store, KEY, RunLock(events).now) == Some(a)
  {
    RunLockInv(events);
    assert BodyOk(RunLock(events), a) && BodyOk(RunLock(events), b);
  }

  // No other acquisition succeeds while a body has an unexpired lease.
  lemma LeaseBlocksOthers(events: seq<LockEvent>, holder: Token, node: nat, token: Token, ttlMs: int, heartbeat: bool,
                          answered: bool)
    requires var s := RunLock(events); holder in s.bodies && Leased(s, holder)
    ensures var s := RunLock(events); NextLock(s, Enter(node, token, ttlMs, heartbeat, answered)) == s
  {
    RunLockInv(events);
    assert BodyOk(RunLock(events), holder);
  }

  // The last set or renewal of every unfinished body is less than its time to live ago. A
  // service does this by renewing at intervals shorter than that.
  ghost predicate Timely(s: LockWorld) {
    forall token :: token in s.bodies ==> Leased(s, token)
  }

  ghost predicate Punctual(s: LockWorld, heartbeatIntervalMs: int) {
    forall token :: token in s.bodies ==>
      s.now - s.bodies[token].lastBeat <= heartbeatIntervalMs < s.bodies[token].handle.ttlMs
  }

  lemma PunctualIsTimely(s: LockWorld, heartbeatIntervalMs: int)
    requires Punctual(s, heartbeatIntervalMs)
    ensures Timely(s)
  {
    forall token | token in s.bodies
      ensures Leased(s, token)
    {
      assert s.now - s.bodies[token].lastBeat < s.bodies[token].handle.ttlMs;
    }
  }

  // As long as holders renew in time, no two bodies overlap.
  lemma BodiesDoNotOverlap(events: seq<LockEvent>, heartbeatIntervalMs: int)
    requires Punctual(RunLock(events), heartbeatIntervalMs)
    ensures |RunLock(events).bodies| <= 1
  {
    PunctualIsTimely(RunLock(events), heartbeatIntervalMs);
    TimelyBodiesDoNotOverlap(events);
  }

  lemma TimelyBodiesDoNotOverlap(events: seq<LockEvent>)
    requires Timely(RunLock(events))
    ensures |RunLock(events).bodies| <= 1
  {
    var s := RunLock(events);
    if s.bodies.Keys != {} {
      var a :| a in s.bodies;
      forall b | b in s.bodies
        ensures b == a
      {
        AtMostOneLease(events, a, b);
      }
      assert s.bodies.Keys == {a};
      assert |s.bodies| == |s.bodies.Keys| == 1;
    } else {
      assert |s.bodies| == |s.bodies.Keys| == 0;
    }
  }

  // A lock is given back: one that is stored and has not expired belongs to an unfinished body,
  // or to a finished one whose release is on its way or could not be delivered, or it was set for
  // a caller whom the answer did not reach.
  lemma LockIsGivenBack(events: seq<LockEvent>, token: Token)
    requires var s := RunLock(events); Live(s.store, KEY, s.now) == Some(token)
    ensures Accounted(RunLock(events), token)
  {
    RunLockInv(events);
  }

  // A release of the token was delivered or given up.
  ghost predicate Delivered(events: seq<LockEvent>, token: Token) {
    exists k :: 0 <= k < |events| && events[k].Deliver? && events[k].token == token
  }

  lemma DeliveredAppend(events: seq<LockEvent>, e: LockEvent, token: Token)
    ensures Delivered(events + [e], token) <==> Delivered(events, token) || (e.Deliver? && e.token == token)
  {
    var all := events + [e];
    assert all[|events|] == e && forall k :: 0 <= k < |events| ==> all[k] == events[k];
  }

  // Every body that finished, however it ended, has sent its release: it is on its way, or it
  // was delivered or given up.
  lemma {:induction false} ReleaseIsSent(events: seq<LockEvent>, token: Token)
    requires token in RunLock(events).results
    ensures token in RunLock(events).releasing || Delivered(events, token)
  {
    if events == [] {
    } else {
      var prefix, event := events[..|events| - 1], events[|events| - 1];
      if token in RunLock(prefix).results {
        ReleaseIsSent(prefix, token);
        assert events == prefix + [event];
        DeliveredAppend(prefix, event, token);
      }
    }
  }

  // An acquisition with a new token, if its answer arrives, succeeds exactly when no unfinished body
  // has an unexpired lease, no finished body's release is outstanding and no lock is alive that was
  // set for a caller whom the answer did not reach.
  lemma AcquisitionExactly(events: seq<LockEvent>, node: nat, token: Token, ttlMs: int, heartbeat: bool)
    requires ttlMs > 0 && Fresh(RunLock(events), token)
    ensures var s := RunLock(events);
            token in NextLock(s, Enter(node, token, ttlMs, heartbeat, true)).bodies <==>
              && (forall holder :: holder in s.bodies ==> !Leased(s, holder))
              && (forall past :: past in s.releasing + s.dropped + s.unheard ==> Live(s.store, KEY, s.now) != Some(past))
  {
    var s := RunLock(events);
    RunLockInv(events);
    match Live(s.store, KEY, s.now)
    case Some(owner) => assert Accounted(s, owner);
    case None =>
      forall holder | holder in s.bodies
        ensures !Leased(s, holder)
      {
        assert BodyOk(s, holder);
      }
  }

  // ---- Heartbeats -------------------------------------------------------------------------

  predicate HasTimer(s: LockWorld, token: Token)
    requires token in s.bodies
  {
    exists id :: id in BeatsOf(s.beats, s.bodies[token].node).running
              && BeatsOf(s.beats, s.bodies[token].node).running[id].token == token
  }

  ghost predicate TimersServeBodies(s: LockWorld) {
    && s.failing == {}
    && (forall token :: token in s.bodies && s.bodies[token].heartbeat ==> HasTimer(s, token))
    && (forall node, id :: id in BeatsOf(s.beats, node).running ==> BeatsOf(s.beats, node).running[id].token in s.bodies)
  }

  // Every state on the way is timely and Redis answers every renewal.
  ghost predicate SmoothRun(events: seq<LockEvent>) {
    events == [] ||
    var prefix, event := events[..|events| - 1], events[|events| - 1];
    SmoothRun(prefix) && Timely(RunLock(prefix)) && (event.Fire? ==> event.fault == NoFault)
  }

  lemma EnterServes(s: LockWorld, node: nat, token: Token, ttlMs: int, heartbeat: bool, answered: bool)
    requires LockInv(s) && Timely(s) && TimersServeBodies(s)
    ensures TimersServeBodies(DoEnter(s, node, token, ttlMs, heartbeat, answered))
  {
    var t := DoEnter(s, node, token, ttlMs, heartbeat, answered);
    forall holder | holder in s.bodies
      ensures Live(s.store, KEY, s.now) == Some(holder)
    {
      assert BodyOk(s, holder) && Leased(s, holder);
    }
    if t != s {
      assert s.bodies == map[];
      if heartbeat && answered {
        assert BeatsOf(t.beats, node).running[s.nextTimer] == Handle(KEY, token, ttlMs);
      }
      assert forall n, id :: id in BeatsOf(t.beats, n).running ==>
          id in BeatsOf(s.beats, n).running || (heartbeat && n == node && id == s.nextTimer);
    }
  }

  lemma FireServes(s: LockWorld, node: nat, timer: TimerId)
    requires LockInv(s) && Timely(s) && TimersServeBodies(s)
    ensures TimersServeBodies(DoFire(s, node, timer, NoFault))
  {
    var t := DoFire(s, node, timer, NoFault);
    if timer in BeatsOf(s.beats, node).running {
      var handle := BeatsOf(s.beats, node).running[timer];
      assert TimerOk(s, node, timer) && BodyOk(s, handle.token) && Leased(s, handle.token);
      forall token | token in t.bodies && t.bodies[token].heartbeat
        ensures HasTimer(t, token)
      {
        assert HasTimer(s, token);
      }
    }
  }

  lemma FinishServes(s: LockWorld, token: Token, threw: bool)
    requires LockInv(s) && Timely(s) && TimersServeBodies(s)
    requires forall other :: other in s.bodies ==> other == token
    ensures TimersServeBodies(DoFinish(s, token, threw))
  {
    var t := DoFinish(s, token, threw);
    if token in s.bodies {
      var body := s.bodies[token];
      StopKeepsOneTimer(BeatsOf(s.beats, body.node), KEY);
      forall n, id | id in BeatsOf(s.beats, n).running
        ensures body.heartbeat && n == body.node && BeatsOf(s.beats, n).running[id].key == KEY
      {
        assert TimerOk(s, n, id);
      }
      assert forall n, id :: id in BeatsOf(t.beats, n).running ==> id in BeatsOf(s.beats, n).running;
    }
  }

  lemma OnlyOneBody(events: seq<LockEvent>, token: Token)
    requires Timely(RunLock(events)) && token in RunLock(events).bodies
    ensures forall other :: other in RunLock(events).bodies ==> other == token
  {
    forall other | other in RunLock(events).bodies
      ensures other == token
    {
      AtMostOneLease(events, token, other);
    }
  }

  // Though timers are kept by key and not by token, in a smooth run every body that has not
  // finished has its own timer running, and no other timer runs.
  lemma {:induction false} HeartbeatsServeTheirBody(events: seq<LockEvent>)
    requires SmoothRun(events)
    ensures TimersServeBodies(RunLock(events))
  {
    if events == [] {
    } else {
      var prefix, event := events[..|events| - 1], events[|events| - 1];
      var s := RunLock(prefix);
      HeartbeatsServeTheirBody(prefix);
      RunLockInv(prefix);
      match event
      case Enter(node, token, ttlMs, heartbeat, answered) => EnterServes(s, node, token, ttlMs, heartbeat, answered);
      case Fire(node, timer, _) => FireServes(s, node, timer);
      case Finish(token, threw) =>
        if token in s.bodies {
          OnlyOneBody(prefix, token);
          FinishServes(s, token, threw);
        }
      case _ =>
        forall token | token in RunLock(events).bodies && RunLock(events).bodies[token].heartbeat
          ensures HasTimer(RunLock(events), token)
        {
          assert HasTimer(s, token);
        }
    }
  }

  // A beat that reaches Redis renews the lock if it is still the holder's own and leaves it alone
  // otherwise; one that does not reach Redis changes nothing there. Its callback is due exactly when
  // the answer was no, or did not come.
  lemma BeatExactly(events: seq<LockEvent>, node: nat, timer: TimerId, fault: Fault)
    requires timer in BeatsOf(RunLock(events).beats, node).running
    ensures var s, t := RunLock(events), NextLock(RunLock(events), Fire(node, timer, fault));
            var handle := BeatsOf(s.beats, node).running[timer];
            var own := Live(s.store, KEY, s.now) == Some(handle.token);
            && t.store == (if own && fault != NotReached then s.store[KEY := Stored(handle.token, s.now + handle.ttlMs)] else s.store)
            && (own && fault != NotReached && handle.token in s.bodies ==> t.bodies[handle.token].lastBeat == s.now)
            && (!own || fault == NotReached ==> t.bodies == s.bodies)
            && t.failing == (if own && fault == NoFault then s.failing else s.failing + {(node, handle.token)})
            && t.now == s.now && t.beats == s.beats && t.releasing == s.releasing && t.results == s.results
  {
    RunLockInv(events);
    assert TimerOk(RunLock(events), node, timer);
  }

  // A release that reaches Redis deletes the lock if it is still the sender's own and no other; one
  // that does not is given up.
  lemma DeliveryExactly(events: seq<LockEvent>, token: Token, reached: bool)
    requires token in RunLock(events).releasing
    ensures var s, t := RunLock(events), NextLock(RunLock(events), Deliver(token, reached));
            && t.store == (if reached && Live(s.store, KEY, s.now) == Some(token) then s.store - {KEY} else s.store)
            && t.releasing == s.releasing - {token}
            && t.dropped == (if reached then s.dropped else s.dropped + {token})
            && t.bodies == s.bodies && t.beats == s.beats && t.results == s.results
  {
  }

  // A holder that is told of a failed renewal renews no more: when the callback has run, no timer of
  // the lock is left in its process, and its body goes on with the loss on record.
  lemma LossStopsTheTimer(events: seq<LockEvent>, node: nat, token: Token)
    requires (node, token) in RunLock(events).failing
    ensures var s, t := RunLock(events), NextLock(RunLock(events), Notice(node, token));
            && BeatsOf(t.beats, node) == NO_BEATS
            && (forall n :: n != node ==> BeatsOf(t.beats, n) == BeatsOf(s.beats, n))
            && (token in s.bodies ==> t.bodies == s.bodies[token := s.bodies[token].(lost := true)])
            && t.store == s.store && t.failing == s.failing - {(node, token)}
  {
    var s := RunLock(events);
    RunLockInv(events);
    var b := BeatsOf(s.beats, node);
    StopKeepsOneTimer(b, KEY);
    forall id | id in b.running
      ensures b.running[id].key == KEY
    {
      assert TimerOk(s, node, id);
    }
    forall key | key in b.active
      ensures key == KEY
    {
      assert b.active[key] in b.running;
    }
    assert Stop(b, KEY).running == map[] && Stop(b, KEY).active == map[];
  }

  // ---- What a lapsed lease allows -----------------------------------------------------------

  ghost predicate ReachableLock(s: LockWorld) {
    exists events :: RunLock(events) == s
  }

  lemma GoLock(s: LockWorld, event: LockEvent) returns (t: LockWorld)
    requires ReachableLock(s)
    ensures t == NextLock(s, event) && ReachableLock(t)
  {
    var events :| RunLock(events) == s;
    t := NextLock(s, event);
    assert (events + [event])[..|events|] == events;
    assert RunLock(events + [event]) == t;
  }

  // A holder that is late by a full time to live overlaps with the next one.
  lemma LateHolderOverlaps()
    ensures exists s :: ReachableLock(s) && "a" in s.bodies && "b" in s.bodies
  {
    assert RunLock([]) == START;
    var s := GoLock(START, Enter(0, "a", 10, true, true));
    s := GoLock(s, Pass(20));
    s := GoLock(s, Enter(0, "b", 10, true, true));
  }

  // Every holder has this time to live, and its last set or renewal is at most an interval ago,
  // as with a timer that fires on time and is answered.
  ghost predicate OnTime(s: LockWorld, ttlMs: int, heartbeatIntervalMs: int) {
    forall token :: token in s.bodies ==>
      s.bodies[token].handle.ttlMs == ttlMs && s.now - s.bodies[token].lastBeat <= heartbeatIntervalMs
  }

  lemma TwoKeys(bodies: map<Token, Body>, a: Token, b: Token)
    requires bodies.Keys == {a, b} && a != b
    ensures |bodies| == 2
  {
    assert |bodies| == |bodies.Keys|;
  }

  lemma TwoOnTime(ttlMs: int, heartbeatIntervalMs: int) returns (s: LockWorld)
    requires 0 < ttlMs <= heartbeatIntervalMs
    ensures ReachableLock(s) && OnTime(s, ttlMs, heartbeatIntervalMs) && |s.bodies| > 1
  {
    assert RunLock([]) == START;
    s := GoLock(START, Enter(0, "a", ttlMs, true, true));
    s := GoLock(s, Pass(ttlMs));
    s := GoLock(s, Enter(1, "b", ttlMs, true, true));
    TwoKeys(s.bodies, "a", "b");
  }

  // The service compares the interval with its own time to live, not with the one a caller gives.
  // Holders whose timers are on time can overlap exactly when the time to live they were given is
  // not longer than the interval.
  lemma ShortLeasesOverlapExactly(ttlMs: int, heartbeatIntervalMs: int)
    requires ttlMs > 0
    ensures (exists s :: ReachableLock(s) && OnTime(s, ttlMs, heartbeatIntervalMs) && |s.bodies| > 1)
       <==> ttlMs <= heartbeatIntervalMs
  {
    if ttlMs <= heartbeatIntervalMs {
      var s := TwoOnTime(ttlMs, heartbeatIntervalMs);
    } else {
      forall s | ReachableLock(s) && OnTime(s, ttlMs, heartbeatIntervalMs)
        ensures |s.bodies| <= 1
      {
        var events :| RunLock(events) == s;
        assert Punctual(s, heartbeatIntervalMs);
        BodiesDoNotOverlap(events, heartbeatIntervalMs);
      }
    }
  }

  // A SET whose answer is lost leaves a live lock that belongs to nobody.
  lemma LostAnswerLeavesALock()
    ensures exists s, token :: ReachableLock(s) && Live(s.store, KEY, s.now) == Some(token)
                            && s.bodies == map[] && s.results == map[] && token in s.unheard
  {
    assert RunLock([]) == START;
    var s := GoLock(START, Enter(0, "a", 10, true, false));
    assert Live(s.store, KEY, s.now) == Some("a");
  }

  // Whichever of two overlapping bodies of one process finishes first stops the timer of the
  // other one, which is kept under the same key; the other one is not told of it.
  lemma FirstToFinishStopsTheOthersTimer(events: seq<LockEvent>, a: Token, b: Token, threw: bool)
    requires var s := RunLock(events);
             && a in s.bodies && b in s.bodies && a != b
             && s.bodies[a].heartbeat && s.bodies[a].node == s.bodies[b].node
    ensures var s := RunLock(events);
            var t := NextLock(s, Finish(a, threw));
            b in t.bodies && t.bodies[b] == s.bodies[b] && !HasTimer(t, b)
  {
    var s := RunLock(events);
    RunLockInv(events);
    var node := s.bodies[a].node;
    StopKeepsOneTimer(BeatsOf(s.beats, node), KEY);
    forall id | id in BeatsOf(s.beats, node).running
      ensures BeatsOf(s.beats, node).running[id].key == KEY
    {
      assert TimerOk(s, node, id);
    }
  }
}
