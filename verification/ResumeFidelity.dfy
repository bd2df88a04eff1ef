// When checkpoints are left to the targets recorded on entry. First in every run, by two
// counts; then in runs in which programs take turns, as the case lock makes the engine's do:
// while one is between its first and its last operation, no other one acts, and what it
// reads is still true when it writes.
module ResumeFidelity {
  import opened Wrappers
  import opened CaseStatus
  import opened CaseRecord
  import opened CaseHistory
  import opened Programs
  import opened Protocol
  import opened ProtocolTheorems

  // ---- Any interleaving ------------------------------------------------------------------

  lemma FaithfulAppend(h: seq<Entry>, e: Entry)
    ensures FaithfulResumes(h + [e]) <==> FaithfulResumes(h) && !(e.from == HumanVerification && OffTarget(h, e.to))
  {
    var g := h + [e];
    assert forall i :: 0 <= i < |h| ==> g[i] == h[i];
    if h != [] {
      assert g[|h| - 1] == h[|h| - 1] && g[|h|] == e;
    }
  }

  // The resume check of a program about to write holds for the history it read.
  predicate Checked(c: Case, proc: Proc) {
    proc.Committing? ==>
      && proc.readAt <= |c.history|
      && (NeedsResumeCheck(proc.request, proc.current) && proc.readAt == |c.history| ==>
            !OffTarget(c.history, proc.request.to))
  }

  ghost predicate Tracked(s: World) {
    WellFormed(s) && forall p :: p in s.procs ==> Checked(s.c, p)
  }

  lemma StaysChecked(c: Case, proc: Proc, other: Proc, input: Input)
    requires Checked(c, other)
    ensures Checked(Advance(c, proc, input).0, other)
  {
    AdvanceLands(c, proc, input);
  }

  lemma BecomesChecked(c: Case, proc: Proc, input: Input)
    requires Checked(c, proc)
    ensures Checked(Advance(c, proc, input).0, Advance(c, proc, input).1)
  {
  }

  lemma NextTracked(s: World, event: Event)
    requires Tracked(s)
    ensures Tracked(Next(s, event))
  {
    NextWellFormed(s, event);
    match event
    case Launch(p) =>
      assert forall x :: x in Next(s, event).procs ==> x in s.procs || x == At(p);
    case Run(pid, input) =>
      if pid < |s.procs| {
        var proc' := Advance(s.c, s.procs[pid], input).1;
        forall x | x in s.procs[pid := proc']
          ensures Checked(Next(s, event).c, x)
        {
          if x == proc' {
            BecomesChecked(s.c, s.procs[pid], input);
          } else {
            assert x in s.procs;
            StaysChecked(s.c, s.procs[pid], x, input);
          }
        }
      }
  }

  lemma {:induction false} RunTracked(s: World, events: seq<Event>)
    requires Tracked(s)
    ensures Tracked(RunFrom(s, events))
  {
    if events == [] {
    } else {
      RunTracked(s, events[..|events| - 1]);
      NextTracked(RunFrom(s, events[..|events| - 1]), events[|events| - 1]);
    }
  }

  // A checkpoint is left off target exactly by a write that is counted as misled or astray.
  lemma OffTargetIsCounted(c: Case, proc: Proc)
    requires ProcOk(proc) && Checked(c, proc)
    ensures (Landing(c, proc).Some? && Landing(c, proc).value.from == HumanVerification
             && OffTarget(c.history, Landing(c, proc).value.to))
       <==> Misled(c, proc) || Astray(c, proc)
  {
    if proc.At? {
      OnlyTheResumeJobLeaves(proc.point);
    }
  }

  lemma OnlyTheResumeJobLeaves(p: Point)
    ensures OperationAt(p).Conditional? && OperationAt(p).entry.from == HumanVerification
       <==> p.WorkerResume? && p.wresume.WResumeGo?
    ensures p.WorkerResume? && p.wresume.WResumeGo? ==> OperationAt(p).entry.to == p.wresume.target
  {
  }

  lemma NextFaithful(s: World, event: Event)
    requires Tracked(s)
    ensures var t := Next(s, event);
            && s.tally.misled + s.tally.astray <= t.tally.misled + t.tally.astray
            && (FaithfulResumes(t.c.history) <==>
                  FaithfulResumes(s.c.history) && t.tally.misled + t.tally.astray == s.tally.misled + s.tally.astray)
  {
    if event.Run? && event.pid < |s.procs| {
      var proc := s.procs[event.pid];
      assert proc in s.procs;
      AdvanceLands(s.c, proc, event.input);
      OffTargetIsCounted(s.c, proc);
      if Landing(s.c, proc).Some? {
        FaithfulAppend(s.c.history, Landing(s.c, proc).value);
      }
    }
  }

  // In every interleaving of all programs, every checkpoint is left to the target recorded on
  // entry exactly when no service write was misled and no worker went astray: the service
  // wrote a resume it had checked before the history grew, out of another checkpoint with
  // another target, or the session-resume job had another target in its session row.
  lemma {:induction false} FaithfulExactly(s: World, events: seq<Event>)
    requires Tracked(s)
    ensures var t := RunFrom(s, events);
            && s.tally.misled + s.tally.astray <= t.tally.misled + t.tally.astray
            && (FaithfulResumes(t.c.history) <==>
                  FaithfulResumes(s.c.history) && t.tally.misled + t.tally.astray == s.tally.misled + s.tally.astray)
  {
    if events == [] {
    } else {
      var prefix := events[..|events| - 1];
      FaithfulExactly(s, prefix);
      RunTracked(s, prefix);
      NextFaithful(RunFrom(s, prefix), events[|events| - 1]);
    }
  }

  lemma {:induction false} MisledIsStale(events: seq<Event>)
    ensures RunFrom(INITIAL, events).tally.misled <= RunFrom(INITIAL, events).tally.stale
  {
    if events == [] {
    } else {
      MisledIsStale(events[..|events| - 1]);
    }
  }

  // So it is enough that no resume of the service is written after the history has grown and
  // that workers resume to what is recorded.
  lemma FreshResumesAreFaithful(events: seq<Event>)
    requires RunFrom(INITIAL, events).tally.stale == 0 && RunFrom(INITIAL, events).tally.astray == 0
    ensures FaithfulResumes(RunFrom(INITIAL, events).c.history)
  {
    MisledIsStale(events);
    FaithfulExactly(INITIAL, events);
  }

  // ---- Turns ---------------------------------------------------------------------------------

  predicate Idle(proc: Proc) {
    match proc
    case At(p) => IsStart(p) || p == Halt
    case Refused(_, _) => true
    case _ => false
  }

  // The programs that take turns: the engine's, other callers of the transition service, and
  // markReady. The queue workers take no lock.
  predicate TakesTurns(p: Point) {
    RunsUnderLock(p) || p.Direct? || p == Mark(MarkStart)
  }

  ghost predicate InTurn(s: World, event: Event) {
    match event
    case Launch(p) => TakesTurns(p)
    case Run(pid, _) => forall i :: 0 <= i < |s.procs| && i != pid ==> Idle(s.procs[i])
  }

  ghost predicate Serialized(s: World, events: seq<Event>) {
    events == [] ||
    (Serialized(s, events[..|events| - 1]) && InTurn(RunFrom(s, events[..|events| - 1]), events[|events| - 1]))
  }

  // ---- What a program in its turn knows -------------------------------------------------

  // The entry at k takes a case from SLOT_FOUND to BOOKING.
  predicate BookedAt(h: seq<Entry>, k: nat) {
    0 < k < |h| && h[k].from == h[k - 1].to == SlotFound && h[k].to == Booking
  }

  // And the slot is the one found before.
  predicate HandsTheSlotFound(h: seq<Entry>, k: nat, slot: Option<string>) {
    BookedAt(h, k) && slot.Some? && slot == FoundIn(h[k - 1].meta)
  }

  // The last entry is the booking, and the slot what the engine recorded as found before it.
  predicate HandsTheCandidate(h: seq<Entry>, slot: Option<string>) {
    h != [] && BookedAt(h, |h| - 1) && slot == h[|h| - 2].meta.slotCandidate
  }

  predicate PointKnows(c: Case, p: Point) {
    match p
    case Resume(ResumeGo(target)) => target == RecordedTarget(LatestMeta(c.history))
    case Book(BookEnter(given, slot, _)) => !given ==> LatestMeta(c.history).slotCandidate == slot
    case Book(BookBegin(given, slot)) => !given ==> HandsTheCandidate(c.history, slot)
    case Mark(MarkWrite) => c.status == Draft
    case _ => true
  }

  // The points of the programs that take turns.
  predicate EnginePoint(p: Point) {
    !p.WorkerCheck? && !p.WorkerBook? && !p.WorkerResume? && !p.Reconcile?
  }

  predicate Knows(c: Case, proc: Proc) {
    match proc
    case At(p) => EnginePoint(p) && PointKnows(c, p)
    case Checking(p, r, current) => EnginePoint(p) && PointKnows(c, p) && current == c.status
    case Committing(p, r, current, readAt) =>
      && EnginePoint(p) && PointKnows(c, p)
      && current == c.status && readAt == |c.history|
    case Refused(p, error) => p.Resume? ==> !error.ResumeMismatch?
  }

  ghost predicate Calm(s: World) {
    && WellFormed(s)
    && Consistent(s.c)
    && forall p :: p in s.procs ==> Knows(s.c, p)
  }

  // An idle program knows nothing about the case, so it stays right when the case changes.
  lemma IdleKnows(c: Case, c': Case, proc: Proc)
    requires Idle(proc) && Knows(c, proc)
    ensures Knows(c', proc)
  {
  }

  lemma StaysEngine(p: Point, reply: Reply)
    requires EnginePoint(p)
    ensures EnginePoint(After(p, reply))
  {
  }

  // What is learned at a point is what the next point relies on.
  lemma AfterKnows(c: Case, p: Point, input: Input)
    requires PointKnows(c, p) && EnginePoint(p) && !OperationAt(p).Transition? && p != Mark(MarkWrite)
    ensures PointKnows(c, After(p, ReplyTo(c, OperationAt(p), input)))
  {
  }

  lemma AfterWriteKnows(c: Case, p: Point, r: Request)
    requires PointKnows(c, p) && OperationAt(p) == Transition(r) && LoadCheck(r, c.status).None?
    requires Consistent(c)
    ensures PointKnows(CompareAndSet(c, RequestEntry(r, c.status)).0, After(p, Moved))
  {
    var e := RequestEntry(r, c.status);
    var h := c.history + [e];
    if p.Book? && p.book.BookEnter? && !p.book.given {
      assert c.status == SlotFound && h[|h| - 2] == c.history[|c.history| - 1];
    }
  }

  // ---- One operation in turn ---------------------------------------------------------------

  ghost predicate Sound(c: Case, proc: Proc) {
    ProcOk(proc) && Knows(c, proc) && Consistent(c)
  }

  lemma LoadKeeps(c: Case, p: Point, r: Request)
    requires Sound(c, At(p)) && OperationAt(p) == Transition(r)
    ensures Sound(c, Load(c, p, r))
  {
  }

  lemma CheckKeeps(c: Case, p: Point, r: Request, current: Status)
    requires Sound(c, Checking(p, r, current))
    ensures Sound(c, CheckHistory(c, p, r, current))
  {
  }

  lemma CommitKeeps(c: Case, p: Point, r: Request, current: Status, readAt: nat, input: Input)
    requires Sound(c, Committing(p, r, current, readAt))
    ensures var (c', proc') := Advance(c, Committing(p, r, current, readAt), input);
            Sound(c', proc')
  {
    var e := RequestEntry(r, current);
    AfterWriteKnows(c, p, r);
    StaysEngine(p, Moved);
    ChainAppend(c.history, e);
    assert Commit(c, r, current) == (Case(e.to, c.history + [e]), None);
  }

  lemma MarkKeeps(c: Case, input: Input)
    requires Sound(c, At(Mark(MarkWrite)))
    ensures var (c', proc') := Advance(c, At(Mark(MarkWrite)), input);
            Sound(c', proc')
  {
    ChainAppend(c.history, READY_ENTRY);
  }

  lemma EnginePointsDoNotWrite(p: Point)
    requires EnginePoint(p) && p != Mark(MarkWrite)
    ensures !OperationAt(p).Conditional? && !OperationAt(p).MarkReady?
  {
  }

  lemma PointKeeps(c: Case, p: Point, input: Input)
    requires Sound(c, At(p)) && !OperationAt(p).Transition? && p != Mark(MarkWrite)
    ensures var (c', proc') := Operate(c, p, input);
            Sound(c', proc')
  {
    EnginePointsDoNotWrite(p);
    AfterKnows(c, p, input);
    StaysEngine(p, ReplyTo(c, OperationAt(p), input));
  }

  lemma AdvanceKeeps(c: Case, proc: Proc, input: Input)
    requires Sound(c, proc)
    ensures var (c', proc') := Advance(c, proc, input);
            Sound(c', proc')
  {
    match proc
    case At(p) =>
      if p == Mark(MarkWrite) {
        MarkKeeps(c, input);
      } else if OperationAt(p).Transition? {
        LoadKeeps(c, p, OperationAt(p).request);
      } else {
        PointKeeps(c, p, input);
      }
    case Checking(p, r, current) => CheckKeeps(c, p, r, current);
    case Committing(p, r, current, readAt) => CommitKeeps(c, p, r, current, readAt, input);
    case Refused(_, _) =>
  }

  // In turn nothing is stale, and the programs that take turns have no worker among them.
  lemma NothingIsStale(c: Case, proc: Proc)
    requires Knows(c, proc)
    ensures !Stale(c, proc) && !Misled(c, proc) && !Astray(c, proc)
  {
  }

  lemma NextCalm(s: World, event: Event)
    requires Calm(s) && InTurn(s, event)
    ensures Calm(Next(s, event))
    ensures var t := Next(s, event).tally;
            t.stale == s.tally.stale && t.misled == s.tally.misled && t.astray == s.tally.astray
  {
    NextWellFormed(s, event);
    match event
    case Launch(p) =>
      assert forall x :: x in Next(s, event).procs ==> x in s.procs || x == At(p);
    case Run(pid, input) =>
      if pid < |s.procs| {
        var proc := s.procs[pid];
        var (c, proc') := Advance(s.c, proc, input);
        AdvanceKeeps(s.c, proc, input);
        NothingIsStale(s.c, proc);
        var procs := s.procs[pid := proc'];
        forall x | x in procs
          ensures Knows(c, x)
        {
          if x != proc' {
            var i :| 0 <= i < |procs| && procs[i] == x;
            assert s.procs[i] == x && Idle(x);
            IdleKnows(s.c, c, x);
          }
        }
      }
  }

  lemma {:induction false} RunCalm(s: World, events: seq<Event>)
    requires Calm(s) && Serialized(s, events)
    ensures Calm(RunFrom(s, events))
    ensures var t := RunFrom(s, events).tally;
            t.stale == s.tally.stale && t.misled == s.tally.misled && t.astray == s.tally.astray
  {
    if events == [] {
    } else {
      var prefix := events[..|events| - 1];
      RunCalm(s, prefix);
      NextCalm(RunFrom(s, prefix), events[|events| - 1]);
    }
  }

  // ---- Theorems ---------------------------------------------------------------------------------

  // Where runs in turn may start: no program is under way, and the history is in order.
  ghost predicate Beginning(s: World) {
    && s.procs == []
    && Canonical(s.c.history) && s.c.status == LastStatus(s.c.history)
    && FaithfulResumes(s.c.history)
    && forall e :: e in s.c.history ==> EntryOk(e)
  }

  lemma BeginningIsCalm(s: World)
    requires Beginning(s)
    ensures Calm(s)
  {
  }

  lemma NewCaseIsABeginning()
    ensures Beginning(INITIAL)
  {
  }

  // Where a run in turn has got to, another one may start once its programs are gone.
  lemma TurnsGoOn(s: World, events: seq<Event>)
    requires Beginning(s) && Serialized(s, events)
    ensures Beginning(RunFrom(s, events).(procs := []))
  {
    BeginningIsCalm(s);
    RunCalm(s, events);
    FaithfulExactly(s, events);
    RunInTurnIsCanonical(s, events);
  }

  lemma TurnsGoOnFromANewCase(events: seq<Event>)
    requires Serialized(INITIAL, events)
    ensures Beginning(RunFrom(INITIAL, events).(procs := []))
  {
    NewCaseIsABeginning();
    TurnsGoOn(INITIAL, events);
  }

  // Between programs that take turns no resume is stale, so every checkpoint is left to the
  // target recorded when it was entered, and executeResume never asks for another one.
  lemma ResumesInTurn(s: World, events: seq<Event>)
    requires Beginning(s) && Serialized(s, events)
    ensures var t := RunFrom(s, events);
            && t.tally.stale == s.tally.stale
            && FaithfulResumes(t.c.history)
            && forall p :: p in t.procs && p.Refused? && p.point.Resume? ==> !p.error.ResumeMismatch?
  {
    BeginningIsCalm(s);
    RunCalm(s, events);
    FaithfulExactly(s, events);
  }

  // A compare-and-set of the service is never too late.
  lemma CommitsSucceed(s: World, events: seq<Event>)
    requires Beginning(s) && Serialized(s, events)
    ensures var t := RunFrom(s, events);
            forall proc <- t.procs :: proc.Committing? ==> Commit(t.c, proc.request, proc.current).1.None?
  {
    BeginningIsCalm(s);
    RunCalm(s, events);
  }

  // Unless the caller gave one, beginBooking is called with the slot the engine recorded when the
  // case entered SLOT_FOUND, which is the slot found exactly if the engine did record one: for a
  // slot that the availability worker found it is called with none, that is, with a made-up one.
  lemma BooksTheSlotFound(s: World, events: seq<Event>)
    requires Beginning(s) && Serialized(s, events)
    ensures var t := RunFrom(s, events);
            forall proc <- t.procs :: proc.At? && Begins(proc) && !proc.point.book.given ==>
              && HandsTheCandidate(t.c.history, proc.point.book.slot)
              && (HandsTheSlotFound(t.c.history, |t.c.history| - 1, proc.point.book.slot) <==>
                    t.c.history[|t.c.history| - 2].meta.slotCandidate.Some?)
  {
    BeginningIsCalm(s);
    RunCalm(s, events);
  }

  lemma EngineWrites(c: Case, proc: Proc, input: Input, e: Entry)
    requires Sound(c, proc)
    requires e in Advance(c, proc, input).0.history && e !in c.history
    ensures CanTransition(e.from, e.to)
  {
    match proc
    case At(p) =>
      if p != Mark(MarkWrite) {
        EnginePointsDoNotWrite(p);
      }
    case _ =>
  }

  lemma NextInTurnIsCanonical(s: World, event: Event)
    requires Calm(s) && InTurn(s, event) && Canonical(s.c.history)
    ensures Canonical(Next(s, event).c.history)
  {
    var t := Next(s, event);
    NextCalm(s, event);
    forall e | e in t.c.history
      ensures CanTransition(e.from, e.to)
    {
      if e !in s.c.history {
        EngineWrites(s.c, s.procs[event.pid], event.input, e);
      }
    }
  }

  // When programs take turns, the history is a chain of edges of the table.
  lemma {:induction false} RunInTurnIsCanonical(s: World, events: seq<Event>)
    requires Beginning(s) && Serialized(s, events)
    ensures Canonical(RunFrom(s, events).c.history)
  {
    if events == [] {
    } else {
      var prefix := events[..|events| - 1];
      BeginningIsCalm(s);
      RunCalm(s, prefix);
      RunInTurnIsCanonical(s, prefix);
      NextInTurnIsCanonical(RunFrom(s, prefix), events[|events| - 1]);
    }
  }

  // Such a run has at most 9 transitions per setback and 10 more.
  lemma RunInTurnIsBounded(s: World, events: seq<Event>)
    requires Beginning(s) && Serialized(s, events)
    ensures var h := RunFrom(s, events).c.history; |h| <= 9 * Setbacks(h) + 10
  {
    RunInTurnIsCanonical(s, events);
    RunLengthBound(RunFrom(s, events).c.history);
  }
}
