// Properties of every run of the protocol, whatever the interleaving, the number of
// programs and the adapter's answers.
module ProtocolTheorems {
  import opened Wrappers
  import opened CaseStatus
  import opened CaseRecord
  import opened CaseHistory
  import opened Programs
  import opened Protocol

  ghost predicate WellFormed(s: World) {
    && (forall p :: p in s.procs ==> ProcOk(p))
    && (forall e :: e in s.c.history ==> EntryOk(e))
  }

  // The entry an event appends, if it appends one.
  function Landed(s: World, event: Event): Option<Entry> {
    if event.Run? && event.pid < |s.procs| then Landing(s.c, s.procs[event.pid]) else None
  }

  lemma NextLands(s: World, event: Event)
    requires WellFormed(s)
    ensures Next(s, event).c == match Landed(s, event) case None => s.c case Some(e) => Case(e.to, s.c.history + [e])
    ensures match Landed(s, event)
            case None => Next(s, event).tally.racy == s.tally.racy
            case Some(e) =>
              && EntryOk(e)
              && Next(s, event).tally.racy == s.tally.racy + Bit(e == READY_ENTRY && s.c.status != Draft)
              && (e != READY_ENTRY ==> e.actor != User && e.from == s.c.status)
  {
    if event.Run? && event.pid < |s.procs| {
      StepWrites(s.c, s.procs[event.pid], event.input);
    }
  }

  lemma NextWellFormed(s: World, event: Event)
    requires WellFormed(s)
    ensures WellFormed(Next(s, event))
  {
    NextLands(s, event);
    match event
    case Launch(p) =>
      assert forall x :: x in Next(s, event).procs ==> x in s.procs || x == At(p);
    case Run(pid, input) =>
      if pid < |s.procs| {
        var (c, proc) := Advance(s.c, s.procs[pid], input);
        StepWrites(s.c, s.procs[pid], input);
        assert forall x :: x in s.procs[pid := proc] ==> x in s.procs || x == proc;
      }
  }

  lemma {:induction false} RunWellFormed(s: World, events: seq<Event>)
    requires WellFormed(s)
    ensures WellFormed(RunFrom(s, events))
  {
    if events == [] {
    } else {
      RunWellFormed(s, events[..|events| - 1]);
      NextWellFormed(RunFrom(s, events[..|events| - 1]), events[|events| - 1]);
    }
  }

  // ---- Conformance -------------------------------------------------------------------

  // Every entry the transition service writes is an edge of the table, under any
  // interference; workers leave the table only from a checkpoint and by two edges, and never
  // take a case out of the waiting queue.
  lemma HistoryConforms(events: seq<Event>, e: Entry)
    requires e in RunFrom(INITIAL, events).c.history
    ensures e.actor == System ==> CanTransition(e.from, e.to)
    ensures e.actor == User ==> e == READY_ENTRY
    ensures e.actor == Worker ==> e.from != WaitingQueue
    ensures e.actor == Worker && !CanTransition(e.from, e.to) && e.from != HumanVerification ==>
              (e.from, e.to) in {(AppointmentSelected, SlotLost), (PaymentRequired, Confirmed)}
  {
    RunWellFormed(INITIAL, events);
  }

  // ---- The history is a chain ----------------------------------------------------------

  lemma NextConsistency(s: World, event: Event)
    requires WellFormed(s)
    ensures var t := Next(s, event);
            && s.tally.racy <= t.tally.racy
            && (Consistent(s.c) ==> (Consistent(t.c) <==> t.tally.racy == s.tally.racy))
            && (Consistent(s.c) ==> (Chain(t.c.history) <==> t.tally.racy == s.tally.racy))
            && (!Chain(s.c.history) ==> !Chain(t.c.history))
            && s.c.history <= t.c.history && (t.c.history == s.c.history ==> t.c == s.c)
            && (IsTerminal(s.c.status) ==> (t.c == s.c <==> t.tally.racy == s.tally.racy))
  {
    NextLands(s, event);
    match Landed(s, event)
    case None =>
    case Some(e) =>
      ChainAppend(s.c.history, e);
      TerminalMeansNoWayOut(e.from);
  }

  // The recorded history is a chain from DRAFT that ends in the stored status exactly when
  // every write of READY found the case in DRAFT.
  lemma {:induction false} ChainExactlyWithoutRace(events: seq<Event>)
    ensures var s := RunFrom(INITIAL, events);
            && (Consistent(s.c) <==> s.tally.racy == 0)
            && (Chain(s.c.history) <==> s.tally.racy == 0)
  {
    if events == [] {
    } else {
      var prefix := events[..|events| - 1];
      ChainExactlyWithoutRace(prefix);
      RunWellFormed(INITIAL, prefix);
      NextConsistency(RunFrom(INITIAL, prefix), events[|events| - 1]);
    }
  }

  // Entries into a status minus exits from it: one where the case is, zero elsewhere.
  lemma HistoryBalances(events: seq<Event>, status: Status)
    requires RunFrom(INITIAL, events).tally.racy == 0
    ensures var c := RunFrom(INITIAL, events).c;
            && Entries(c.history, status) + (if status == Draft then 1 else 0)
            == Exits(c.history, status) + (if status == c.status then 1 else 0)
  {
    ChainExactlyWithoutRace(events);
    FlowBalance(RunFrom(INITIAL, events).c.history, status);
  }

  // Nothing is ever removed from the history, and the row changes only together with it.
  lemma {:induction false} HistoryIsAppendOnly(s: World, events: seq<Event>)
    requires WellFormed(s)
    ensures var t := RunFrom(s, events);
            && s.tally.racy <= t.tally.racy
            && s.c.history <= t.c.history
            && (t.c.history == s.c.history ==> t.c == s.c)
  {
    if events == [] {
    } else {
      var prefix := events[..|events| - 1];
      HistoryIsAppendOnly(s, prefix);
      RunWellFormed(s, prefix);
      NextConsistency(RunFrom(s, prefix), events[|events| - 1]);
    }
  }

  // ---- Terminal statuses absorb -----------------------------------------------------------

  // From a terminal status nothing changes any more, neither status nor history, unless a
  // write of READY lands on it, and then something does.
  lemma {:induction false} TerminalAbsorbs(s: World, events: seq<Event>)
    requires WellFormed(s) && IsTerminal(s.c.status)
    ensures RunFrom(s, events).c == s.c <==> RunFrom(s, events).tally.racy == s.tally.racy
  {
    if events == [] {
    } else {
      var prefix := events[..|events| - 1];
      TerminalAbsorbs(s, prefix);
      HistoryIsAppendOnly(s, prefix);
      RunWellFormed(s, prefix);
      NextConsistency(RunFrom(s, prefix), events[|events| - 1]);
    }
  }

  // ---- At most one booking per slot ----------------------------------------------------------

  // Whether a program is about to begin a booking.
  function Weight(proc: Proc, who: Actor): nat {
    match who
    case System => Bit(Begins(proc))
    case Worker => Bit(WorkerBegins(proc))
    case User => 0
  }

  function Pending(procs: seq<Proc>, who: Actor): nat {
    if procs == [] then 0
    else Pending(procs[..|procs| - 1], who) + Weight(procs[|procs| - 1], who)
  }

  lemma {:induction false} PendingUpdate(procs: seq<Proc>, pid: nat, proc: Proc, who: Actor)
    requires pid < |procs|
    ensures Pending(procs[pid := proc], who) + Weight(procs[pid], who) == Pending(procs, who) + Weight(proc, who)
  {
    var n := |procs| - 1;
    if pid == n {
      assert procs[pid := proc][..n] == procs[..n];
    } else {
      assert procs[pid := proc][..n] == procs[..n][pid := proc];
      PendingUpdate(procs[..n], pid, proc, who);
    }
  }

  // Entries SLOT_FOUND -> BOOKING by one kind of actor.
  function Starts(h: seq<Entry>, who: Actor): nat {
    Crossings(h, SlotFound, Booking, who)
  }

  predicate LandsStart(c: Case, proc: Proc, who: Actor) {
    var e := Landing(c, proc);
    e.Some? && e.value.from == SlotFound && e.value.to == Booking && e.value.actor == who
  }

  lemma PointStarts(p: Point, reply: Reply)
    ensures Begins(At(After(p, reply))) ==> p.Book? && p.book.BookEnter? && reply == Moved
    ensures WorkerBegins(At(After(p, reply))) ==> p == WorkerBook(WBookEnter) && reply.Wrote?
    ensures p.Book? && p.book.BookEnter? ==>
              OperationAt(p) == Move(SlotFound, Booking) && Begins(At(After(p, Moved)))
    ensures p == WorkerBook(WBookEnter) && reply.Wrote? ==> WorkerBegins(At(After(p, reply)))
    ensures OperationAt(p).Conditional? ==>
              (OperationAt(p).entry.from == SlotFound && OperationAt(p).entry.to == Booking <==> p == WorkerBook(WBookEnter))
  {
  }

  lemma RequestStarts(p: Point, r: Request, current: Status)
    requires OperationAt(p) == Transition(r) && LoadCheck(r, current).None?
    ensures current == SlotFound && r.to == Booking <==>
              (p.Book? && p.book.BookEnter?) || (p.Direct? && current == SlotFound && r.to == Booking)
  {
  }

  // A program is about to begin a booking exactly when it has just written the entry that
  // pays for it, apart from a worker whose write was refused.
  lemma StartsAreFollowed(c: Case, proc: Proc, input: Input)
    requires ProcOk(proc)
    ensures var proc' := Advance(c, proc, input).1;
            && Weight(proc', System) + Bit(Bare(c, proc)) == Bit(LandsStart(c, proc, System))
            && Weight(proc', Worker) == Bit(LandsStart(c, proc, Worker)) + Bit(RefusedStart(c, proc))
  {
    match proc
    case At(p) =>
      WorkerWritesAreKnown(p);
      PointStarts(p, ReplyTo(c, OperationAt(p), input));
    case Committing(p, r, current, _) =>
      PointStarts(p, Moved);
      RequestStarts(p, r, current);
    case _ =>
  }

  // Bookings begun or about to begin, against the entries SLOT_FOUND -> BOOKING: the engine
  // never gets ahead of them, the worker does by exactly the writes that were refused to it.
  ghost predicate Accounts(s: World) {
    && s.tally.begun + Pending(s.procs, System) + s.tally.bare == Starts(s.c.history, System)
    && s.tally.wbegun + Pending(s.procs, Worker) == Starts(s.c.history, Worker) + s.tally.refused
  }

  lemma LandingStarts(c: Case, proc: Proc, input: Input, who: Actor)
    ensures Starts(Advance(c, proc, input).0.history, who) == Starts(c.history, who) + Bit(LandsStart(c, proc, who))
  {
    AdvanceLands(c, proc, input);
    if Landing(c, proc).Some? {
      CrossingsAppend(c.history, Landing(c, proc).value, SlotFound, Booking, who);
    }
  }

  lemma StepBalances(s: World, pid: nat, input: Input, who: Actor)
    requires pid < |s.procs|
    ensures var proc, (c, proc') := s.procs[pid], Advance(s.c, s.procs[pid], input);
            && Pending(s.procs[pid := proc'], who) + Weight(proc, who) == Pending(s.procs, who) + Weight(proc', who)
            && Starts(c.history, who) == Starts(s.c.history, who) + Bit(LandsStart(s.c, proc, who))
  {
    PendingUpdate(s.procs, pid, Advance(s.c, s.procs[pid], input).1, who);
    LandingStarts(s.c, s.procs[pid], input, who);
  }

  lemma RunAccounts(s: World, pid: nat, input: Input)
    requires Accounts(s) && pid < |s.procs| && ProcOk(s.procs[pid])
    ensures Accounts(Next(s, Run(pid, input)))
  {
    StartsAreFollowed(s.c, s.procs[pid], input);
    StepBalances(s, pid, input, System);
    StepBalances(s, pid, input, Worker);
  }

  lemma LaunchAccounts(s: World, p: Point)
    requires Accounts(s)
    ensures Accounts(Next(s, Launch(p)))
  {
    assert (s.procs + [At(p)])[..|s.procs|] == s.procs;
  }

  lemma NextAccounts(s: World, event: Event)
    requires WellFormed(s) && Accounts(s)
    ensures Accounts(Next(s, event))
  {
    match event
    case Launch(p) => LaunchAccounts(s, p);
    case Run(pid, input) =>
      if pid < |s.procs| {
        assert s.procs[pid] in s.procs;
        RunAccounts(s, pid, input);
      }
  }

  lemma {:induction false} BookingsAreAccountedFor(events: seq<Event>)
    ensures Accounts(RunFrom(INITIAL, events))
  {
    if events == [] {
    } else {
      var prefix := events[..|events| - 1];
      BookingsAreAccountedFor(prefix);
      RunWellFormed(INITIAL, prefix);
      NextAccounts(RunFrom(INITIAL, prefix), events[|events| - 1]);
    }
  }

  lemma NextExits(s: World, event: Event, status: Status)
    requires WellFormed(s) && status != Draft
    requires Exits(s.c.history, status) + (if s.c.status == status then 1 else 0) <= Entries(s.c.history, status)
    ensures var c := Next(s, event).c;
            Exits(c.history, status) + (if c.status == status then 1 else 0) <= Entries(c.history, status)
  {
    NextLands(s, event);
    match Landed(s, event)
    case None =>
    case Some(e) => CountAppend(s.c.history, e, status);
  }

  // A status is left at most as often as it is entered, even when writes of READY race.
  lemma {:induction false} ExitsNeedEntries(events: seq<Event>, status: Status)
    requires status != Draft
    ensures var c := RunFrom(INITIAL, events).c;
            Exits(c.history, status) + (if c.status == status then 1 else 0) <= Entries(c.history, status)
  {
    if events == [] {
    } else {
      var prefix := events[..|events| - 1];
      ExitsNeedEntries(prefix, status);
      RunWellFormed(INITIAL, prefix);
      NextExits(RunFrom(INITIAL, prefix), events[|events| - 1], status);
    }
  }

  // In every interleaving the engine calls beginBooking at most once per entry
  // SLOT_FOUND -> BOOKING of its own, and there are no more of those than slots found.
  lemma AtMostOneBookingPerSlot(events: seq<Event>)
    ensures var s := RunFrom(INITIAL, events);
            && s.tally.begun <= Starts(s.c.history, System)
            && Starts(s.c.history, System) + Starts(s.c.history, Worker) <= Entries(s.c.history, SlotFound)
  {
    var h := RunFrom(INITIAL, events).c.history;
    BookingsAreAccountedFor(events);
    ExitsNeedEntries(events, SlotFound);
    CrossingsAreExits(h, SlotFound, Booking);
  }

  // The booking worker does not look at the answer of its compare-and-set. Once no program
  // is about to begin a booking, it has begun no more than it recorded exactly when none of
  // its writes was refused.
  lemma WorkerBookingsExactly(events: seq<Event>)
    requires Pending(RunFrom(INITIAL, events).procs, Worker) == 0
    ensures var s := RunFrom(INITIAL, events);
            s.tally.wbegun <= Starts(s.c.history, Worker) <==> s.tally.refused == 0
  {
    BookingsAreAccountedFor(events);
  }

  // ---- A booking job whose case is elsewhere --------------------------------------------------

  predicate Elsewhere(s: Status) {
    s !in {SlotFound, Booking, AddingApplicants, AppointmentSelected}
  }

  // The case is elsewhere throughout a run.
  ghost predicate StaysElsewhere(s: World, events: seq<Event>) {
    Elsewhere(RunFrom(s, events).c.status) && (events == [] || StaysElsewhere(s, events[..|events| - 1]))
  }

  lemma BookingJobStep(c: Case, p: Point, input: Input)
    requires p == Halt || p.WorkerBook?
    requires Elsewhere(c.status)
    ensures var (c', proc) := Advance(c, At(p), input); c' == c && proc.At? && (proc.point == Halt || proc.point.WorkerBook?)
  {
  }

  // Whatever the other programs do and the adapter answers, a booking job under way while the
  // case is elsewhere, because another program took it or a write was refused, writes nothing.
  lemma {:induction false} BookingJobElsewhereWritesNothing(s: World, events: seq<Event>, pid: nat, input: Input)
    requires pid < |s.procs| && s.procs[pid].At? && s.procs[pid].point.WorkerBook?
    requires StaysElsewhere(s, events)
    ensures var t := RunFrom(s, events);
            && pid < |t.procs| && t.procs[pid].At? && (t.procs[pid].point == Halt || t.procs[pid].point.WorkerBook?)
            && Next(t, Run(pid, input)).c == t.c
  {
    if events == [] {
    } else {
      var prefix, event := events[..|events| - 1], events[|events| - 1];
      BookingJobElsewhereWritesNothing(s, prefix, pid, input);
      var r := RunFrom(s, prefix);
      if event.Run? && event.pid == pid {
        BookingJobStep(r.c, r.procs[pid].point, event.input);
      }
    }
    var t := RunFrom(s, events);
    BookingJobStep(t.c, t.procs[pid].point, input);
  }

  // ---- Length of a run with workers ----------------------------------------------------------

  function Potential(s: Status): int {
    if Setback(s) then -1 else Stage(s)
  }

  lemma EdgeRaisesPotential(e: Entry)
    requires EntryOk(e)
    ensures Potential(e.from) + 1 <= Potential(e.to) + if Setback(e.to) then 11 else 0
  {
  }

  // What the programs write, one entry after another.
  ghost predicate Permitted(h: seq<Entry>) {
    Chain(h) && forall e :: e in h ==> EntryOk(e)
  }

  lemma PermittedAppend(h: seq<Entry>, e: Entry)
    ensures Permitted(h + [e]) <==> Permitted(h) && EntryOk(e) && e.from == LastStatus(h)
    ensures Setbacks(h + [e]) == Setbacks(h) + if Setback(e.to) then 1 else 0
  {
    ChainAppend(h, e);
    CountAppend(h, e, HumanVerification);
    CountAppend(h, e, SlotLost);
    assert e in h + [e] && forall x :: x in h ==> x in h + [e];
  }

  // Whatever workers and reconciliation add to the table, a run with v setbacks has at most
  // 11v + 10 transitions.
  lemma {:induction false} MixedRunLengthBound(h: seq<Entry>)
    requires Permitted(h)
    ensures |h| <= 11 * Setbacks(h) + Potential(LastStatus(h)) <= 11 * Setbacks(h) + 10
  {
    if h == [] {
    } else {
      var g, e := h[..|h| - 1], h[|h| - 1];
      assert h == g + [e];
      PermittedAppend(g, e);
      MixedRunLengthBound(g);
      EdgeRaisesPotential(e);
    }
  }

  lemma EveryRunIsBounded(events: seq<Event>)
    ensures var s := RunFrom(INITIAL, events);
            s.tally.racy == 0 ==> |s.c.history| <= 11 * Setbacks(s.c.history) + 10
  {
    RunWellFormed(INITIAL, events);
    ChainExactlyWithoutRace(events);
    if RunFrom(INITIAL, events).tally.racy == 0 {
      MixedRunLengthBound(RunFrom(INITIAL, events).c.history);
    }
  }

  // ---- That bound is attained, too -------------------------------------------------------------

  const RESTART := Entry(HumanVerification, Draft, Worker, NO_META)

  // From the checkpoint a worker resumes to DRAFT, and the case goes all the way again.
  lemma OneMoreRestart(h: seq<Entry>) returns (g: seq<Entry>)
    requires Permitted(h) && (LastStatus(h) == PaymentProcessing || h == [])
    ensures Permitted(g) && LastStatus(g) == PaymentProcessing
    ensures |g| == |h| + (if h == [] then 9 else 11) && Setbacks(g) == Setbacks(h) + if h == [] then 0 else 1
  {
    g := h;
    if h != [] {
      var challenge := Entry(PaymentProcessing, HumanVerification, System, NO_META);
      PermittedAppend(g, challenge);
      g := g + [challenge];
      PermittedAppend(g, RESTART);
      g := g + [RESTART];
    }
    PermittedAppend(g, READY_ENTRY);
    g := g + [READY_ENTRY];
    g := WalkOn(g);
  }

  lemma WalkOn(h: seq<Entry>) returns (g: seq<Entry>)
    requires Permitted(h) && LastStatus(h) == Ready
    ensures Permitted(g) && LastStatus(g) == PaymentProcessing && |g| == |h| + 8 && Setbacks(g) == Setbacks(h)
  {
    var route := LongestRoute();
    g := h;
    for i := 0 to 8
      invariant Permitted(g) && |g| == |h| + i && Setbacks(g) == Setbacks(h)
      invariant LastStatus(g) == if i == 0 then Ready else route[i - 1]
    {
      var e := Entry(LastStatus(g), route[i], System, NO_META);
      PermittedAppend(g, e);
      g := g + [e];
    }
  }

  lemma {:induction false} Restarted(v: nat) returns (h: seq<Entry>)
    ensures Permitted(h) && Setbacks(h) == v && LastStatus(h) == PaymentProcessing && |h| == 11 * v + 9
  {
    if v == 0 {
      h := OneMoreRestart([]);
    } else {
      var g := Restarted(v - 1);
      h := OneMoreRestart(g);
    }
  }

  lemma MixedRunLengthBoundIsTight(v: nat)
    ensures exists h :: Permitted(h) && Setbacks(h) == v && |h| == 11 * v + 10
  {
    var h := Restarted(v);
    var e := Entry(PaymentProcessing, Confirmed, System, NO_META);
    PermittedAppend(h, e);
  }
}
