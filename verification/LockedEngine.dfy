// The engine's programs inside withCaseLock: the timed lock and the protocol in one system.
// A program of the engine is launched by a successful acquisition, acts only while its body is
// unfinished, and its body finishes when the program has ended. Worker jobs, the
// reconciliation and markReady take no lock and act at any time. Other holders of the lock,
// such as the orphan recovery, come and go without writing the status.
module LockedEngine {
  import opened Wrappers
  import opened CaseStatus
  import opened CaseRecord
  import opened CaseHistory
  import opened Programs
  import opened Protocol
  import opened ProtocolTheorems
  import opened ResumeFidelity
  import opened Confirmations
  import opened RepositoryRuns
  import opened SlotHandover
  import CaseLock
  import opened LockRuns

  datatype Site = Site(locks: LockWorld, world: World, pidOf: map<CaseLock.Token, nat>)

  datatype SiteEvent =
    | LockStep(event: LockEvent)
    | Begin(node: nat, token: CaseLock.Token, ttlMs: int, program: Point)
    | Work(token: CaseLock.Token, input: Input)
    | End(token: CaseLock.Token, threw: bool)
    | Free(action: Event)    // a program that takes no lock is launched or acts

  predicate Done(proc: Proc) {
    proc == At(Halt) || proc.Refused?
  }

  predicate Unlocked(p: Point) {
    p.WorkerCheck? || p.WorkerBook? || p.WorkerResume? || p.Reconcile? || p.Mark?
  }

  predicate Owns(s: Site, token: CaseLock.Token) {
    token in s.locks.bodies && token in s.pidOf && s.pidOf[token] < |s.world.procs|
  }

  // The program was launched under the lock.
  predicate UnderLock(s: Site, pid: nat) {
    exists token :: token in s.pidOf && s.pidOf[token] == pid
  }

  predicate Starts(s: Site, event: SiteEvent)
    requires event.Begin?
  {
    && RunsUnderLock(event.program) && IsStart(event.program)
    && Fresh(s.locks, event.token)
    && event.token in NextLock(s.locks, Enter(event.node, event.token, event.ttlMs, true, true)).bodies
  }

  // The lock operation and the protocol operation an event amounts to.
  function LockPart(s: Site, event: SiteEvent): seq<LockEvent> {
    match event
    case LockStep(e) => if e.Finish? && e.token in s.pidOf then [] else [e]
    case Begin(node, token, ttlMs, _) => if Starts(s, event) then [Enter(node, token, ttlMs, true, true)] else []
    case End(token, threw) =>
      // a refused transition is an error of the function
      if Owns(s, token) && Done(s.world.procs[s.pidOf[token]])
      then [Finish(token, threw || s.world.procs[s.pidOf[token]].Refused?)] else []
    case _ => []
  }

  function ProtocolPart(s: Site, event: SiteEvent): seq<Event> {
    match event
    case Begin(_, _, _, program) => if Starts(s, event) then [Launch(program)] else []
    case Work(token, input) => if Owns(s, token) then [Run(s.pidOf[token], input)] else []
    case Free(Launch(p)) => if Unlocked(p) && IsStart(p) then [Launch(p)] else []
    case Free(Run(pid, input)) => if pid < |s.world.procs| && !UnderLock(s, pid) then [Run(pid, input)] else []
    case _ => []
  }

  function NextSite(s: Site, event: SiteEvent): Site {
    var l, p := LockPart(s, event), ProtocolPart(s, event);
    Site(if l == [] then s.locks else NextLock(s.locks, l[0]),
         if p == [] then s.world else Next(s.world, p[0]),
         if event.Begin? && Starts(s, event) then s.pidOf[event.token := |s.world.procs|] else s.pidOf)
  }

  function RunSite(w: World, events: seq<SiteEvent>): Site {
    if events == [] then Site(START, w, map[])
    else NextSite(RunSite(w, events[..|events| - 1]), events[|events| - 1])
  }

  function LockTrace(w: World, events: seq<SiteEvent>): seq<LockEvent> {
    if events == [] then []
    else
      var prefix := events[..|events| - 1];
      LockTrace(w, prefix) + LockPart(RunSite(w, prefix), events[|events| - 1])
  }

  function ProtocolTrace(w: World, events: seq<SiteEvent>): seq<Event> {
    if events == [] then []
    else
      var prefix := events[..|events| - 1];
      ProtocolTrace(w, prefix) + ProtocolPart(RunSite(w, prefix), events[|events| - 1])
  }

  // Each of the engine's four calls begins by taking the lock: on a free lock it is launched and holds
  // it, with a heartbeat, and no call is launched without. Every other program the repository has is launched without.
  lemma EngineCallsTakeTheLock(w: World, node: nat, token: CaseLock.Token, ttlMs: int, p: Point)
    requires IsStart(p) && !p.Direct? && ttlMs > 0
    ensures var s := Site(START, w, map[]);
            var locked := p.Auth? || p.Check? || p.Book? || p.Resume?;
            var begun := NextSite(s, Begin(node, token, ttlMs, p));
            var unlocked := NextSite(s, SiteEvent.Free(Launch(p)));
            && (locked ==> begun.world.procs == w.procs + [At(p)] && token in begun.locks.bodies
                           && begun.locks.bodies[token] == Body(node, CaseLock.Handle(KEY, token, ttlMs), 0, true, false)
                           && CaseLock.Live(begun.locks.store, KEY, begun.locks.now) == Some(token) && unlocked == s)
            && (!locked ==> begun == s && unlocked.world.procs == w.procs + [At(p)] && unlocked.locks == s.locks)
  {
  }

  lemma OneLockStep(s: Site, event: SiteEvent, trace: seq<LockEvent>)
    requires RunLock(trace) == s.locks
    ensures RunLock(trace + LockPart(s, event)) == NextSite(s, event).locks
  {
    var part := LockPart(s, event);
    if part == [] {
      assert trace + part == trace;
    } else {
      assert (trace + part)[..|trace + part| - 1] == trace;
    }
  }

  lemma OneProtocolStep(s: Site, event: SiteEvent, w: World, trace: seq<Event>)
    requires RunFrom(w, trace) == s.world
    ensures RunFrom(w, trace + ProtocolPart(s, event)) == NextSite(s, event).world
  {
    var part := ProtocolPart(s, event);
    if part == [] {
      assert trace + part == trace;
    } else {
      assert (trace + part)[..|trace + part| - 1] == trace;
    }
  }

  lemma {:induction false} LockProjects(w: World, events: seq<SiteEvent>)
    ensures RunLock(LockTrace(w, events)) == RunSite(w, events).locks
  {
    if events == [] {
    } else {
      var prefix, event := events[..|events| - 1], events[|events| - 1];
      LockProjects(w, prefix);
      OneLockStep(RunSite(w, prefix), event, LockTrace(w, prefix));
    }
  }

  lemma {:induction false} ProtocolProjects(w: World, events: seq<SiteEvent>)
    ensures RunFrom(w, ProtocolTrace(w, events)) == RunSite(w, events).world
  {
    if events == [] {
    } else {
      var prefix, event := events[..|events| - 1], events[|events| - 1];
      ProtocolProjects(w, prefix);
      OneProtocolStep(RunSite(w, prefix), event, w, ProtocolTrace(w, prefix));
    }
  }

  // The combined system projects to a run of the lock and a run of the protocol.
  lemma Projects(w: World, events: seq<SiteEvent>)
    ensures RunLock(LockTrace(w, events)) == RunSite(w, events).locks
    ensures RunFrom(w, ProtocolTrace(w, events)) == RunSite(w, events).world
  {
    LockProjects(w, events);
    ProtocolProjects(w, events);
  }

  // When a call has ended, its body reports the error of a refused transition like one that was
  // thrown, and else a lost lock; and the lock is on its way back.
  lemma EndedCallReports(s: Site, token: CaseLock.Token, threw: bool)
    requires Owns(s, token)
    ensures var t, proc, lost := NextSite(s, End(token, threw)), s.world.procs[s.pidOf[token]], s.locks.bodies[token].lost;
            && (proc != At(Halt) && !proc.Refused? ==> t == s)
            && (proc == At(Halt) || proc.Refused? ==>
                  && token !in t.locks.bodies && token in t.locks.releasing && token in t.locks.results && t.world == s.world
                  && t.locks.results[token] == if threw || proc.Refused? then Threw else if lost then RaisedOwnershipLost else Returned)
  {
  }

  // ---- Who is under way ------------------------------------------------------------------------

  predicate PointInPlace(s: Site, pid: nat)
    requires pid < |s.world.procs|
  {
    var p := s.world.procs[pid].point;
    p == Halt || if UnderLock(s, pid) then RunsUnderLock(p) else Unlocked(p)
  }

  ghost predicate HasBody(s: Site, pid: nat) {
    exists token :: token in s.locks.bodies && token in s.pidOf && s.pidOf[token] == pid
  }

  // Every program launched under the lock that has not ended belongs to an unfinished body.
  ghost predicate SiteInv(s: Site) {
    && (forall token :: token in s.pidOf ==> s.pidOf[token] < |s.world.procs| && !Fresh(s.locks, token))
    && (forall pid: nat :: pid < |s.world.procs| ==> PointInPlace(s, pid))
    && (forall pid: nat :: pid < |s.world.procs| && UnderLock(s, pid) && !Done(s.world.procs[pid]) ==> HasBody(s, pid))
  }

  lemma LockKeepsTokens(s: LockWorld, event: LockEvent, token: CaseLock.Token)
    ensures !Fresh(s, token) ==> !Fresh(NextLock(s, event), token)
    ensures token in s.bodies && !(event.Finish? && event.token == token) ==> token in NextLock(s, event).bodies
  {
  }

  lemma PointsStay(c: Case, proc: Proc, input: Input)
    ensures var q := Advance(c, proc, input).1.point;
            q == Halt || ((RunsUnderLock(proc.point) ==> RunsUnderLock(q)) && (Unlocked(proc.point) ==> Unlocked(q)))
    ensures proc.point == Halt ==> Advance(c, proc, input).1.point == Halt
  {
  }

  // What one event does to the programs.
  lemma ProgramsAfter(s: Site, event: SiteEvent)
    requires SiteInv(s)
    ensures var t := NextSite(s, event);
            && |s.world.procs| <= |t.world.procs|
            && forall pid: nat :: pid < |s.world.procs| ==> (UnderLock(t, pid) <==> UnderLock(s, pid))
  {
    var t := NextSite(s, event);
    forall pid: nat | pid < |s.world.procs|
      ensures UnderLock(t, pid) <==> UnderLock(s, pid)
    {
      if token :| token in s.pidOf && s.pidOf[token] == pid {
        assert token in t.pidOf && t.pidOf[token] == pid;
      }
    }
  }

  lemma OldPointInPlace(s: Site, event: SiteEvent, pid: nat)
    requires SiteInv(s) && pid < |s.world.procs| && |s.world.procs| <= |NextSite(s, event).world.procs|
    requires UnderLock(NextSite(s, event), pid) <==> UnderLock(s, pid)
    ensures PointInPlace(NextSite(s, event), pid)
    ensures Done(s.world.procs[pid]) ==> Done(NextSite(s, event).world.procs[pid])
  {
    var p := ProtocolPart(s, event);
    assert PointInPlace(s, pid);
    if p != [] && p[0].Run? && p[0].pid == pid {
      PointsStay(s.world.c, s.world.procs[pid], p[0].input);
    }
  }

  lemma NewPointInPlace(s: Site, event: SiteEvent, pid: nat)
    requires SiteInv(s) && |s.world.procs| <= pid < |NextSite(s, event).world.procs|
    ensures PointInPlace(NextSite(s, event), pid)
    ensures UnderLock(NextSite(s, event), pid) ==> HasBody(NextSite(s, event), pid)
  {
    var t := NextSite(s, event);
    if event.Begin? {
      assert event.token in t.pidOf && t.pidOf[event.token] == pid && event.token in t.locks.bodies;
    }
  }

  lemma OldBodyStays(s: Site, event: SiteEvent, pid: nat)
    requires SiteInv(s) && pid < |s.world.procs| && !Done(s.world.procs[pid]) && HasBody(s, pid)
    ensures HasBody(NextSite(s, event), pid)
  {
    var t, l := NextSite(s, event), LockPart(s, event);
    var token :| token in s.locks.bodies && token in s.pidOf && s.pidOf[token] == pid;
    if l != [] {
      LockKeepsTokens(s.locks, l[0], token);
    }
    assert token in t.locks.bodies && token in t.pidOf && t.pidOf[token] == pid;
  }

  lemma NextSiteInv(s: Site, event: SiteEvent)
    requires SiteInv(s)
    ensures SiteInv(NextSite(s, event))
  {
    var t, l := NextSite(s, event), LockPart(s, event);
    ProgramsAfter(s, event);
    forall token | token in s.pidOf
      ensures !Fresh(t.locks, token)
    {
      if l != [] {
        LockKeepsTokens(s.locks, l[0], token);
      }
    }
    forall pid: nat | pid < |t.world.procs|
      ensures PointInPlace(t, pid)
      ensures UnderLock(t, pid) && !Done(t.world.procs[pid]) ==> HasBody(t, pid)
    {
      if pid < |s.world.procs| {
        OldPointInPlace(s, event, pid);
        if UnderLock(s, pid) && !Done(t.world.procs[pid]) {
          OldBodyStays(s, event, pid);
        }
      } else {
        NewPointInPlace(s, event, pid);
      }
    }
  }

  lemma {:induction false} RunSiteInv(w: World, events: seq<SiteEvent>)
    requires w.procs == []
    ensures SiteInv(RunSite(w, events))
  {
    if events == [] {
    } else {
      RunSiteInv(w, events[..|events| - 1]);
      NextSiteInv(RunSite(w, events[..|events| - 1]), events[|events| - 1]);
    }
  }

  // Every holder's last renewal is less than its time to live ago, at every moment.
  ghost predicate InTime(w: World, events: seq<SiteEvent>) {
    && Timely(RunSite(w, events).locks)
    && (events == [] || InTime(w, events[..|events| - 1]))
  }

  // As long as holders renew in time, no other program under the lock is under way while one acts.
  lemma OthersAreDone(w: World, events: seq<SiteEvent>, token: CaseLock.Token, pid: nat)
    requires w.procs == [] && Timely(RunSite(w, events).locks)
    requires Owns(RunSite(w, events), token) && pid != RunSite(w, events).pidOf[token]
    requires pid < |RunSite(w, events).world.procs| && UnderLock(RunSite(w, events), pid)
    ensures Done(RunSite(w, events).world.procs[pid])
  {
    var s := RunSite(w, events);
    RunSiteInv(w, events);
    Projects(w, events);
    if !Done(s.world.procs[pid]) {
      var other :| other in s.locks.bodies && other in s.pidOf && s.pidOf[other] == pid;
      OnlyOneBody(LockTrace(w, events), token);
    }
  }

  // ---- The engine alone ---------------------------------------------------------------------------

  // No program acts without the lock.
  ghost predicate EngineOnly(events: seq<SiteEvent>) {
    forall event :: event in events ==> !event.Free?
  }

  lemma {:induction false} EveryoneIsUnderLock(w: World, events: seq<SiteEvent>)
    requires w.procs == [] && EngineOnly(events)
    ensures forall pid: nat :: pid < |RunSite(w, events).world.procs| ==> UnderLock(RunSite(w, events), pid)
  {
    if events == [] {
    } else {
      var prefix, event := events[..|events| - 1], events[|events| - 1];
      assert event in events && forall x :: x in prefix ==> x in events;
      EveryoneIsUnderLock(w, prefix);
      RunSiteInv(w, prefix);
      var s, t := RunSite(w, prefix), RunSite(w, events);
      ProgramsAfter(s, event);
      if event.Begin? && Starts(s, event) {
        assert event.token in t.pidOf && t.pidOf[event.token] == |s.world.procs|;
      }
    }
  }

  lemma OneMoreInTurn(w: World, trace: seq<Event>, part: seq<Event>)
    requires Serialized(w, trace) && |part| <= 1
    requires part != [] ==> InTurn(RunFrom(w, trace), part[0])
    ensures Serialized(w, trace + part)
  {
    if part == [] {
      assert trace + part == trace;
    } else {
      assert (trace + part)[..|trace + part| - 1] == trace;
    }
  }

  lemma WorkIsInTurn(w: World, events: seq<SiteEvent>, token: CaseLock.Token, input: Input)
    requires w.procs == [] && EngineOnly(events) && Timely(RunSite(w, events).locks)
    requires Owns(RunSite(w, events), token)
    ensures InTurn(RunSite(w, events).world, Run(RunSite(w, events).pidOf[token], input))
  {
    var s := RunSite(w, events);
    EveryoneIsUnderLock(w, events);
    forall pid: nat | pid < |s.world.procs| && pid != s.pidOf[token]
      ensures Idle(s.world.procs[pid])
    {
      OthersAreDone(w, events, token, pid);
    }
  }

  // As long as holders renew in time, the engine's programs take turns.
  lemma {:induction false} LockSerializes(w: World, events: seq<SiteEvent>)
    requires w.procs == [] && EngineOnly(events) && InTime(w, events)
    ensures Serialized(w, ProtocolTrace(w, events))
  {
    if events == [] {
    } else {
      var prefix, event := events[..|events| - 1], events[|events| - 1];
      assert event in events && forall x :: x in prefix ==> x in events;
      LockSerializes(w, prefix);
      Projects(w, prefix);
      var s := RunSite(w, prefix);
      if event.Work? && Owns(s, event.token) {
        WorkIsInTurn(w, prefix, event.token, event.input);
      }
      OneMoreInTurn(w, ProtocolTrace(w, prefix), ProtocolPart(s, event));
    }
  }

  // From a case in order, in every timed run of the engine alone in which holders renew in time,
  // checkpoints are left to their recorded targets, no resume is refused as a mismatch, no
  // compare-and-set of the service comes too late, beginBooking gets the slot that was found if the
  // engine recorded it and none otherwise, and the run is bounded by its setbacks.
  lemma LockedRuns(w: World, events: seq<SiteEvent>)
    requires Beginning(w) && EngineOnly(events) && InTime(w, events)
    ensures var t := RunSite(w, events).world;
            && FaithfulResumes(t.c.history)
            && (forall p :: p in t.procs && p.Refused? && p.point.Resume? ==> !p.error.ResumeMismatch?)
            && (forall p :: p in t.procs && p.Committing? ==> Commit(t.c, p.request, p.current).1.None?)
            && (forall p :: p in t.procs && p.At? && Begins(p) && !p.point.book.given ==>
                  && HandsTheCandidate(t.c.history, p.point.book.slot)
                  && (HandsTheSlotFound(t.c.history, |t.c.history| - 1, p.point.book.slot) <==>
                        t.c.history[|t.c.history| - 2].meta.slotCandidate.Some?))
            && |t.c.history| <= 9 * Setbacks(t.c.history) + 10
  {
    var trace := ProtocolTrace(w, events);
    LockSerializes(w, events);
    Projects(w, events);
    ResumesInTurn(w, trace);
    CommitsSucceed(w, trace);
    BooksTheSlotFound(w, trace);
    RunInTurnIsBounded(w, trace);
  }

  // ---- With the programs that take no lock ---------------------------------------------------------

  lemma {:induction false} TraceIsOfTheRepository(w: World, events: seq<SiteEvent>)
    ensures forall x :: x in ProtocolTrace(w, events) ==> InRepository(x)
  {
    if events == [] {
    } else {
      TraceIsOfTheRepository(w, events[..|events| - 1]);
    }
  }

  // What the protocol promises for every interleaving it promises here, whether or not holders
  // renew in time: the exact condition for faithful resumes, for a history without gaps and for
  // handing over the slot that was found, the bound, and at most one booking of the engine per
  // entry it wrote.
  lemma MixedRuns(events: seq<SiteEvent>)
    ensures var t := RunSite(INITIAL, events).world;
            && (FaithfulResumes(t.c.history) <==> t.tally.misled + t.tally.astray == 0)
            && (AlwaysGapless(t.c.history) <==> t.tally.leaps == 0)
            && (t.tally.racy == 0 ==> |t.c.history| <= 9 * Entries(t.c.history, HumanVerification) + 10)
            && (AlwaysHandsFound(ProtocolTrace(INITIAL, events)) <==> t.tally.misbooked == 0)
            && t.tally.begun <= ProtocolTheorems.Starts(t.c.history, System) <= Entries(t.c.history, SlotFound)
  {
    var trace := ProtocolTrace(INITIAL, events);
    Projects(INITIAL, events);
    FaithfulExactly(INITIAL, trace);
    GaplessExactly(trace);
    FoundSlotIsHandedOverExactly(trace);
    AtMostOneBookingPerSlot(trace);
    TraceIsOfTheRepository(INITIAL, events);
    if RunFrom(INITIAL, trace).tally.racy == 0 {
      RepositoryRunIsBounded(trace);
    }
  }

  // From the n-th entry on nothing was written by the service.
  predicate NoServiceSince(h: seq<Entry>, n: nat) {
    n <= |h| && forall i :: n <= i < |h| ==> h[i].actor != System
  }

  // A booking that has read its slot and is not entered yet.
  predicate HasReadSlot(proc: Proc) {
    !proc.Refused? && proc.point.Book? && proc.point.book.BookEnter? && !proc.point.book.given
  }

  // What was written since a program made its checks, or read its slot, was not written by the
  // service.
  predicate MissedNoService(c: Case, proc: Proc) {
    && (proc.Committing? ==> NoServiceSince(c.history, proc.readAt))
    && (HasReadSlot(proc) ==> NoServiceSince(c.history, proc.point.book.readAt))
  }

  lemma UnlockedWrites(c: Case, proc: Proc)
    requires ProcOk(proc) && (proc.point == Halt || Unlocked(proc.point))
    ensures !proc.Committing? && (Landing(c, proc).Some? ==> Landing(c, proc).value.actor != System)
  {
    if proc.At? {
      WorkerWritesAreKnown(proc.point);
    }
  }

  lemma MissedStep(c: Case, proc: Proc, other: Proc, input: Input)
    requires MissedNoService(c, other)
    requires other.Committing? || HasReadSlot(other) ==> Landing(c, proc).None? || Landing(c, proc).value.actor != System
    ensures MissedNoService(Advance(c, proc, input).0, other)
  {
    AdvanceLands(c, proc, input);
  }

  lemma OwnStep(c: Case, proc: Proc, input: Input)
    requires MissedNoService(c, proc)
    ensures MissedNoService(Advance(c, proc, input).0, Advance(c, proc, input).1)
  {
    if proc.At? {
      ReadingComesFirst(proc.point, ReplyTo(c, OperationAt(proc.point), input));
    } else if proc.Committing? {
      ReadingComesFirst(proc.point, Moved);
    }
  }

  lemma MissedAfter(w: World, events: seq<SiteEvent>, event: SiteEvent, pid: nat)
    requires w.procs == [] && WellFormed(RunSite(w, events).world) && Timely(RunSite(w, events).locks)
    requires pid < |RunSite(w, events).world.procs|
    requires MissedNoService(RunSite(w, events).world.c, RunSite(w, events).world.procs[pid])
    ensures var t := NextSite(RunSite(w, events), event).world;
            pid < |t.procs| && MissedNoService(t.c, t.procs[pid])
  {
    var s := RunSite(w, events);
    var part := ProtocolPart(s, event);
    RunSiteInv(w, events);
    if part != [] && part[0].Run? {
      var actor, proc := part[0].pid, s.world.procs[part[0].pid];
      assert proc in s.world.procs && s.world.procs[pid] in s.world.procs && PointInPlace(s, pid);
      if actor == pid {
        OwnStep(s.world.c, proc, part[0].input);
      } else {
        if event.Free? {
          assert PointInPlace(s, actor);
          UnlockedWrites(s.world.c, proc);
        } else if UnderLock(s, pid) {
          OthersAreDone(w, events, event.token, pid);
        } else {
          UnlockedWrites(s.world.c, s.world.procs[pid]);
        }
        MissedStep(s.world.c, proc, s.world.procs[pid], part[0].input);
      }
    }
  }

  lemma SiteWellFormed(w: World, events: seq<SiteEvent>)
    requires WellFormed(w)
    ensures WellFormed(RunSite(w, events).world)
  {
    Projects(w, events);
    RunWellFormed(w, ProtocolTrace(w, events));
  }

  lemma NewcomerMissedNothing(s: Site, event: SiteEvent, pid: nat)
    requires |s.world.procs| <= pid < |NextSite(s, event).world.procs|
    ensures NextSite(s, event).world.procs[pid].At? && !HasReadSlot(NextSite(s, event).world.procs[pid])
  {
  }

  lemma MissedNext(w: World, events: seq<SiteEvent>, event: SiteEvent, pid: nat)
    requires w.procs == [] && WellFormed(w) && Timely(RunSite(w, events).locks)
    requires pid < |NextSite(RunSite(w, events), event).world.procs|
    requires pid < |RunSite(w, events).world.procs| ==>
               MissedNoService(RunSite(w, events).world.c, RunSite(w, events).world.procs[pid])
    ensures MissedNoService(NextSite(RunSite(w, events), event).world.c, NextSite(RunSite(w, events), event).world.procs[pid])
  {
    if pid < |RunSite(w, events).world.procs| {
      SiteWellFormed(w, events);
      MissedAfter(w, events, event, pid);
    } else {
      NewcomerMissedNothing(RunSite(w, events), event, pid);
    }
  }

  // As long as holders renew in time, whatever was written between an engine call's checks and
  // its write, or between its reading of the slot and the booking, was written by a program that
  // takes no lock.
  lemma {:induction false} OnlyUnlockedProgramsInterfere(w: World, events: seq<SiteEvent>, pid: nat)
    requires w.procs == [] && WellFormed(w) && InTime(w, events) && pid < |RunSite(w, events).world.procs|
    ensures MissedNoService(RunSite(w, events).world.c, RunSite(w, events).world.procs[pid])
  {
    if events == [] {
    } else {
      var prefix, event := events[..|events| - 1], events[|events| - 1];
      if pid < |RunSite(w, prefix).world.procs| {
        OnlyUnlockedProgramsInterfere(w, prefix, pid);
      }
      MissedNext(w, prefix, event, pid);
    }
  }

  // So a resume of the engine is misled only by a checkpoint that a worker entered meanwhile.
  lemma OnlyWorkersMislead(w: World, events: seq<SiteEvent>, pid: nat)
    requires w.procs == [] && WellFormed(w) && InTime(w, events) && pid < |RunSite(w, events).world.procs|
    ensures var t := RunSite(w, events).world;
            Misled(t.c, t.procs[pid]) ==> t.c.history[|t.c.history| - 1].actor == Worker
  {
    SiteWellFormed(w, events);
    OnlyUnlockedProgramsInterfere(w, events, pid);
    var t := RunSite(w, events).world;
    if Misled(t.c, t.procs[pid]) {
      var last := t.c.history[|t.c.history| - 1];
      assert last in t.c.history && EntryOk(last);
    }
  }

  lemma LastIsOfAWorker(h: seq<Entry>, readAt: nat)
    requires h != [] && h[|h| - 1].to == SlotFound && (forall e :: e in h ==> EntryOk(e))
    requires NoServiceSince(h, readAt) && (readAt < |h| || h[|h| - 1].actor == Worker)
    ensures h[|h| - 1].actor == Worker
  {
    assert h[|h| - 1] in h && EntryOk(h[|h| - 1]);
  }

  lemma MisbookedByAWorker(t: World, trace: seq<Event>, pid: nat)
    requires RunFrom(INITIAL, trace) == t && (forall x :: x in trace ==> InRepository(x)) && WellFormed(t)
    requires pid < |t.procs| && Misbooks(t.c, t.procs[pid]) && MissedNoService(t.c, t.procs[pid])
    ensures var h := t.c.history; h != [] && h[|h| - 1].to == SlotFound && h[|h| - 1].actor == Worker
  {
    MisbookingTakesAWorkerOrARace(trace, pid);
    LastIsOfAWorker(t.c.history, t.procs[pid].point.book.readAt);
  }

  // And a booking is entered with another slot than the one found, or with none, only if a worker
  // entered SLOT_FOUND.
  lemma OnlyWorkersMisbook(events: seq<SiteEvent>, pid: nat)
    requires InTime(INITIAL, events) && pid < |RunSite(INITIAL, events).world.procs|
    ensures var t := RunSite(INITIAL, events).world;
            Misbooks(t.c, t.procs[pid]) ==>
              t.c.history != [] && t.c.history[|t.c.history| - 1].to == SlotFound
              && t.c.history[|t.c.history| - 1].actor == Worker
  {
    var t := RunSite(INITIAL, events).world;
    if Misbooks(t.c, t.procs[pid]) {
      Projects(INITIAL, events);
      TraceIsOfTheRepository(INITIAL, events);
      SiteWellFormed(INITIAL, events);
      OnlyUnlockedProgramsInterfere(INITIAL, events, pid);
      MisbookedByAWorker(t, ProtocolTrace(INITIAL, events), pid);
    }
  }

  // ---- Confirmations -------------------------------------------------------------------------------

  predicate NoWorker(event: SiteEvent) {
    event.Free? && event.action.Launch? ==> event.action.point.Mark?
  }

  lemma {:induction false} TraceIsOfTheApi(w: World, events: seq<SiteEvent>)
    requires forall event :: event in events ==> NoWorker(event)
    ensures forall x :: x in ProtocolTrace(w, events) ==> ApiEvent(x)
  {
    if events == [] {
    } else {
      var prefix, event := events[..|events| - 1], events[|events| - 1];
      assert event in events && forall x :: x in prefix ==> x in events;
      TraceIsOfTheApi(w, prefix);
    }
  }

  // Of engine calls and markReady, with locks that lapse or not, every confirmation has been
  // through every stage.
  lemma LockedConfirmationSkipsNothing(events: seq<SiteEvent>)
    requires forall event :: event in events ==> NoWorker(event)
    ensures var c := RunSite(INITIAL, events).world.c; c.status == Confirmed ==> WentAllTheWay(c.history)
  {
    Projects(INITIAL, events);
    TraceIsOfTheApi(INITIAL, events);
    ApiConfirmationSkipsNothing(ProtocolTrace(INITIAL, events));
  }
}
