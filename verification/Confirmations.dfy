// What lies behind a confirmation, in any interleaving: whether stages were skipped, by which
// writes, and what the adapter had answered.
module Confirmations {
  import opened Wrappers
  import opened CaseStatus
  import opened CaseRecord
  import opened CaseHistory
  import opened Programs
  import opened Protocol
  import opened ProtocolTheorems

  // ---- Gaps, with workers ------------------------------------------------------------------

  lemma HeightAppend(h: seq<Entry>, e: Entry)
    ensures Height(h + [e]) == if Level(e.to) > Height(h) then Level(e.to) else Height(h)
  {
    assert (h + [e])[..|h|] == h;
  }

  // An edge that neither leaves the checkpoint nor is the reconciled confirmation never skips.
  lemma OrdinaryEdgesClimb(c: Case, e: Entry)
    requires Grounded(c.history) && c.status == LastStatus(c.history) && EntryOk(e) && (e == READY_ENTRY || e.from == c.status)
    ensures Skips(c.history, e.to) ==> e.from == HumanVerification || (e.from == PaymentRequired && e.to == Confirmed)
    ensures Setback(e.to) ==> Height(c.history) >= 2
  {
  }

  lemma NextGaps(s: World, event: Event)
    requires WellFormed(s) && Grounded(s.c.history) && s.c.status == LastStatus(s.c.history)
    ensures var t := Next(s, event);
            && Grounded(t.c.history) && t.c.status == LastStatus(t.c.history) && s.tally.leaps <= t.tally.leaps
            && (AlwaysGapless(t.c.history) <==> AlwaysGapless(s.c.history) && t.tally.leaps == s.tally.leaps)
  {
    NextLands(s, event);
    match Landed(s, event)
    case None =>
    case Some(e) =>
      OrdinaryEdgesClimb(s.c, e);
      HeightAppend(s.c.history, e);
      AlwaysGaplessAppend(s.c.history, e);
  }

  // In every interleaving of all programs, the history is without gaps at every moment exactly
  // when no resume and no reconciled confirmation passed over a level not visited before.
  lemma {:induction false} GaplessExactly(events: seq<Event>)
    ensures var s := RunFrom(INITIAL, events);
            && Grounded(s.c.history) && s.c.status == LastStatus(s.c.history)
            && (AlwaysGapless(s.c.history) <==> s.tally.leaps == 0)
  {
    if events == [] {
    } else {
      var prefix := events[..|events| - 1];
      GaplessExactly(prefix);
      RunWellFormed(INITIAL, prefix);
      NextGaps(RunFrom(INITIAL, prefix), events[|events| - 1]);
    }
  }

  // Without such a write every confirmation, by whichever program, has every stage behind it.
  lemma ConfirmationWithoutLeaps(events: seq<Event>)
    requires RunFrom(INITIAL, events).tally.leaps == 0
    ensures var h := RunFrom(INITIAL, events).c.history; Visited(h, Confirmed) ==> WentAllTheWay(h)
  {
    GaplessExactly(events);
    var h := RunFrom(INITIAL, events).c.history;
    if Visited(h, Confirmed) {
      GaplessConfirmation(h);
    }
  }

  ghost predicate WentAllTheWay(h: seq<Entry>) {
    (forall s :: OnTheWay(s) ==> Visited(h, s)) && (Visited(h, Monitoring) || Visited(h, WaitingQueue))
  }

  // ---- What every booking has behind it -----------------------------------------------------

  // The statuses a booking has put behind it at a point of executeBooking.
  function Trail(p: BookPoint): set<Status> {
    match p
    case BookStart(_) => {}
    case BookFind(_, _) => {}
    case BookSlot => {}
    case BookEnter(_, _, _) => {}
    case BookBegin(_, _) => {SlotFound, Booking}
    case BookLost => {SlotFound, Booking}
    case BookAdd => {SlotFound, Booking}
    case BookApplicants => {SlotFound, Booking, AddingApplicants}
    case BookSelect => {SlotFound, Booking, AddingApplicants}
    case BookAppointment => {SlotFound, Booking, AddingApplicants, AppointmentSelected}
    case BookPayment => {SlotFound, Booking, AddingApplicants, AppointmentSelected}
    case BookHuman(_) => {SlotFound, Booking, AddingApplicants, AppointmentSelected}
    case BookPay(_) => {SlotFound, Booking, AddingApplicants, AppointmentSelected}
    case BookProcess => {SlotFound, Booking, AddingApplicants, AppointmentSelected, PaymentRequired}
    case BookConfirmation => {SlotFound, Booking, AddingApplicants, AppointmentSelected, PaymentRequired, PaymentProcessing}
    case BookConfirm => {SlotFound, Booking, AddingApplicants, AppointmentSelected, PaymentRequired, PaymentProcessing}
  }

  ghost predicate HasTrail(h: seq<Entry>, proc: Proc) {
    proc.point.Book? ==> forall s :: s in Trail(proc.point.book) ==> Visited(h, s)
  }

  ghost predicate Entered(c: Case) {
    c.status == Draft || Visited(c.history, c.status)
  }

  ghost predicate Trailed(s: World) {
    WellFormed(s) && Entered(s.c) && forall p :: p in s.procs ==> HasTrail(s.c.history, p)
  }

  lemma VisitedAppend(h: seq<Entry>, e: Entry, s: Status)
    ensures Visited(h + [e], s) <==> Visited(h, s) || e.to == s
  {
    if Visited(h, s) {
      var x :| x in h && x.to == s;
      assert x in h + [e];
    }
    if e.to == s {
      assert e in h + [e];
    }
  }

  // A trail grows only by the two ends of a transition.
  lemma TrailGrows(p: Point, reply: Reply)
    ensures var q := After(p, reply);
            q.Book? ==>
              && p.Book?
              && forall s :: s in Trail(q.book) ==>
                   s in Trail(p.book)
                   || (OperationAt(p).Transition? && OperationAt(p).request.expected.Some?
                       && (s == OperationAt(p).request.to || s == OperationAt(p).request.expected.value))
  {
  }

  lemma KeepsTrail(c: Case, proc: Proc, input: Input, other: Proc)
    requires HasTrail(c.history, other)
    ensures HasTrail(Advance(c, proc, input).0.history, other)
  {
    AdvanceLands(c, proc, input);
    if Landing(c, proc).Some? {
      forall s | Visited(c.history, s)
        ensures Visited(Advance(c, proc, input).0.history, s)
      {
        VisitedAppend(c.history, Landing(c, proc).value, s);
      }
    }
  }

  lemma CommitTrail(c: Case, p: Point, r: Request, current: Status, readAt: nat, input: Input)
    requires ProcOk(Committing(p, r, current, readAt)) && HasTrail(c.history, Committing(p, r, current, readAt)) && Entered(c)
    ensures var (c', proc') := Advance(c, Committing(p, r, current, readAt), input); HasTrail(c'.history, proc')
  {
    KeepsTrail(c, Committing(p, r, current, readAt), input, At(p));
    TrailGrows(p, Moved);
    if c.status == current {
      VisitedAppend(c.history, RequestEntry(r, current), current);
      VisitedAppend(c.history, RequestEntry(r, current), r.to);
    }
  }

  lemma AdvanceTrail(c: Case, proc: Proc, input: Input)
    requires ProcOk(proc) && HasTrail(c.history, proc) && Entered(c)
    ensures HasTrail(Advance(c, proc, input).0.history, Advance(c, proc, input).1)
  {
    match proc
    case At(p) =>
      KeepsTrail(c, proc, input, proc);
      TrailGrows(p, ReplyTo(c, OperationAt(p), input));
    case Committing(p, r, current, readAt) => CommitTrail(c, p, r, current, readAt, input);
    case _ =>
  }

  lemma StaysEntered(c: Case, proc: Proc, input: Input)
    requires Entered(c)
    ensures Entered(Advance(c, proc, input).0)
  {
    AdvanceLands(c, proc, input);
    if Landing(c, proc).Some? {
      VisitedAppend(c.history, Landing(c, proc).value, Landing(c, proc).value.to);
    }
  }

  lemma NextTrailed(s: World, event: Event)
    requires Trailed(s)
    ensures Trailed(Next(s, event))
  {
    NextWellFormed(s, event);
    match event
    case Launch(p) =>
      assert forall x :: x in Next(s, event).procs ==> x in s.procs || x == At(p);
    case Run(pid, input) =>
      if pid < |s.procs| {
        var proc, proc' := s.procs[pid], Advance(s.c, s.procs[pid], input).1;
        assert proc in s.procs;
        AdvanceTrail(s.c, proc, input);
        StaysEntered(s.c, proc, input);
        forall x | x in s.procs[pid := proc']
          ensures HasTrail(Next(s, event).c.history, x)
        {
          if x != proc' {
            assert x in s.procs;
            KeepsTrail(s.c, proc, input, x);
          }
        }
      }
  }

  lemma {:induction false} RunsAreTrailed(events: seq<Event>)
    ensures Trailed(RunFrom(INITIAL, events))
  {
    if events == [] {
    } else {
      RunsAreTrailed(events[..|events| - 1]);
      NextTrailed(RunFrom(INITIAL, events[..|events| - 1]), events[|events| - 1]);
    }
  }

  // Every event is of a program the repository has; nothing in it calls the transition service
  // but the engine.
  predicate InRepository(event: Event) {
    event.Launch? ==> !event.point.Direct?
  }

  lemma {:induction false} NoDirectCaller(events: seq<Event>)
    requires forall event :: event in events ==> InRepository(event)
    ensures forall p :: p in RunFrom(INITIAL, events).procs ==> !p.point.Direct?
  {
    if events == [] {
    } else {
      var prefix, event := events[..|events| - 1], events[|events| - 1];
      assert event in events && forall x :: x in prefix ==> x in events;
      NoDirectCaller(prefix);
      var s, t := RunFrom(INITIAL, prefix), RunFrom(INITIAL, events);
      forall p | p in t.procs
        ensures !p.point.Direct?
      {
        if event.Run? && event.pid < |s.procs| && p == t.procs[event.pid] {
          assert s.procs[event.pid] in s.procs;
          StaysIndirect(s.c, s.procs[event.pid], event.input);
        } else {
          assert p in s.procs || (event.Launch? && p == At(event.point));
        }
      }
    }
  }

  lemma StaysIndirect(c: Case, proc: Proc, input: Input)
    requires !proc.point.Direct?
    ensures !Advance(c, proc, input).1.point.Direct?
  {
  }

  lemma OnlyBookingConfirms(p: Point, r: Request, current: Status)
    requires !p.Direct? && OperationAt(p) == Transition(r) && LoadCheck(r, current).None? && r.to == Confirmed
    ensures p == Book(BookConfirm)
  {
  }

  lemma ServiceConfirms(c: Case, proc: Proc)
    requires ProcOk(proc) && !proc.point.Direct?
    requires var e := Landing(c, proc); e.Some? && e.value.actor == System && e.value.to == Confirmed
    ensures proc.point == Book(BookConfirm)
  {
    if proc.At? {
      WorkerWritesAreKnown(proc.point);
    } else {
      OnlyBookingConfirms(proc.point, proc.request, proc.current);
    }
  }

  // Whoever else acts, workers included: when the engine writes CONFIRMED, the case has been
  // through every stage from SLOT_FOUND on.
  lemma EngineConfirmsAfterBooking(events: seq<Event>, event: Event)
    requires forall x :: x in events ==> InRepository(x)
    requires var e := Landed(RunFrom(INITIAL, events), event);
             e.Some? && e.value.actor == System && e.value.to == Confirmed
    ensures forall s :: s in Trail(BookConfirm) ==> Visited(RunFrom(INITIAL, events).c.history, s)
  {
    var proc := RunFrom(INITIAL, events).procs[event.pid];
    assert proc in RunFrom(INITIAL, events).procs;
    RunsAreTrailed(events);
    NoDirectCaller(events);
    ServiceConfirms(RunFrom(INITIAL, events).c, proc);
  }

  // ---- The programs of the API alone -------------------------------------------------------

  predicate ApiPoint(p: Point) {
    p == Halt || p.Auth? || p.Check? || p.Book? || p.Resume? || p.Mark?
  }

  predicate ApiEvent(event: Event) {
    event.Launch? ==> ApiPoint(event.point)
  }

  // How the programs of the API enter a status.
  ghost predicate Explained(h: seq<Entry>) {
    && (Visited(h, Authenticating) ==> Visited(h, Ready))
    && (Visited(h, HumanVerification) ==> Visited(h, Authenticating))
    && (Visited(h, Monitoring) || Visited(h, WaitingQueue) ==> Visited(h, Authenticating))
    && (Visited(h, SlotFound) ==> Visited(h, Monitoring) || Visited(h, WaitingQueue))
    && (Visited(h, Confirmed) ==> WentAllTheWay(h))
  }

  ghost predicate Earned(s: World) {
    Trailed(s) && Explained(s.c.history) && forall p :: p in s.procs ==> ApiPoint(p.point)
  }

  lemma ApiWrites(c: Case, proc: Proc)
    requires ProcOk(proc) && ApiPoint(proc.point) && Landing(c, proc).Some?
    ensures var e := Landing(c, proc).value;
            && (e == READY_ENTRY || (proc.Committing? && OperationAt(proc.point) == Transition(proc.request)
                                     && e == RequestEntry(proc.request, c.status) && CanTransition(c.status, e.to)))
            && (e.to == SlotFound ==> e.from == Monitoring || e.from == WaitingQueue)
            && (e.to == HumanVerification ==> e.from == Authenticating || (proc.point.Book? && proc.point.book.BookHuman?))
            && (e.to == Confirmed ==> proc.point == Book(BookConfirm))
            && (e.to == Monitoring || e.to == WaitingQueue ==> e.from in {Authenticating, HumanVerification})
            && (e.to == Authenticating ==> e.from in {Ready, HumanVerification})
  {
  }

  lemma ExplainedEntry(h: seq<Entry>, e: Entry)
    requires Explained(h) && (e.from == Draft || Visited(h, e.from))
    requires e.to == Authenticating ==> e.from == Ready || e.from == HumanVerification
    requires e.to == Monitoring || e.to == WaitingQueue ==> e.from in {Authenticating, HumanVerification}
    requires e.to == SlotFound ==> e.from == Monitoring || e.from == WaitingQueue
    requires e.to == HumanVerification ==> e.from == Authenticating || Visited(h, SlotFound)
    requires e.to == Confirmed ==> forall s :: s in Trail(BookConfirm) ==> Visited(h, s)
    ensures Explained(h + [e])
  {
    forall s
      ensures Visited(h + [e], s) <==> Visited(h, s) || e.to == s
    {
      VisitedAppend(h, e, s);
    }
  }

  lemma ExplainedAppend(c: Case, proc: Proc)
    requires ProcOk(proc) && ApiPoint(proc.point) && HasTrail(c.history, proc) && Landing(c, proc).Some?
    requires Explained(c.history) && Entered(c)
    ensures Explained(c.history + [Landing(c, proc).value])
  {
    ApiWrites(c, proc);
    ExplainedEntry(c.history, Landing(c, proc).value);
  }

  lemma StaysApi(c: Case, proc: Proc, input: Input)
    requires ApiPoint(proc.point)
    ensures ApiPoint(Advance(c, proc, input).1.point)
  {
  }

  lemma NextEarned(s: World, event: Event)
    requires Earned(s) && ApiEvent(event)
    ensures Earned(Next(s, event))
  {
    NextTrailed(s, event);
    match event
    case Launch(p) =>
      assert forall x :: x in Next(s, event).procs ==> x in s.procs || x == At(p);
    case Run(pid, input) =>
      if pid < |s.procs| {
        var proc, proc' := s.procs[pid], Advance(s.c, s.procs[pid], input).1;
        assert proc in s.procs;
        AdvanceLands(s.c, proc, input);
        StaysApi(s.c, proc, input);
        if Landing(s.c, proc).Some? {
          ExplainedAppend(s.c, proc);
        }
        assert forall x :: x in s.procs[pid := proc'] ==> x in s.procs || x == proc';
      }
  }

  lemma {:induction false} ApiRunsAreEarned(events: seq<Event>)
    requires forall event :: event in events ==> ApiEvent(event)
    ensures Earned(RunFrom(INITIAL, events))
  {
    if events == [] {
    } else {
      var prefix, event := events[..|events| - 1], events[|events| - 1];
      assert event in events && forall x :: x in prefix ==> x in events;
      ApiRunsAreEarned(prefix);
      NextEarned(RunFrom(INITIAL, prefix), event);
    }
  }

  // In every interleaving of any number of engine calls and markReady, without a lock and with
  // any resume targets, a confirmed case has been through every stage.
  lemma ApiConfirmationSkipsNothing(events: seq<Event>)
    requires forall event :: event in events ==> ApiEvent(event)
    ensures RunFrom(INITIAL, events).c.status == Confirmed ==> WentAllTheWay(RunFrom(INITIAL, events).c.history)
  {
    ApiRunsAreEarned(events);
  }

  // ---- What the adapter had answered ----------------------------------------------------------

  type Answers = map<Call, Answer>

  // The adapter's answers to one program, the latest for each kind of call.
  function Heard(events: seq<Event>, pid: nat): Answers {
    if events == [] then map[]
    else
      var prefix, event := events[..|events| - 1], events[|events| - 1];
      var s := RunFrom(INITIAL, prefix);
      if event.Run? && event.pid == pid && pid < |s.procs| && s.procs[pid].At? && OperationAt(s.procs[pid].point).Ask?
      then Heard(prefix, pid)[OperationAt(s.procs[pid].point).call := event.input.answer]
      else Heard(prefix, pid)
  }

  predicate Answered(heard: Answers, call: Call) {
    call in heard && !heard[call].Throws?
  }

  predicate KeptSlot(heard: Answers) {
    Answered(heard, BeginBooking) && !(heard[BeginBooking].Success? && heard[BeginBooking].data.outcome == LostSlot)
  }

  predicate PaysAtOnce(heard: Answers) {
    && Answered(heard, GetPaymentState) && !heard[GetPaymentState].HumanAction?
    && !(heard[GetPaymentState].Success? && heard[GetPaymentState].data.paymentUrl)
  }

  // The answers that lead executeBooking to a confirmation.
  predicate Completes(heard: Answers) {
    && KeptSlot(heard) && Answered(heard, AddApplicants) && Answered(heard, SelectAppointment)
    && PaysAtOnce(heard) && Answered(heard, GetConfirmation)
  }

  // What a point of executeBooking rests on.
  predicate Backed(p: BookPoint, heard: Answers) {
    match p
    case BookAdd => KeptSlot(heard)
    case BookApplicants => KeptSlot(heard)
    case BookSelect => KeptSlot(heard) && Answered(heard, AddApplicants)
    case BookAppointment => KeptSlot(heard) && Answered(heard, AddApplicants)
    case BookPayment => KeptSlot(heard) && Answered(heard, AddApplicants) && Answered(heard, SelectAppointment)
    case BookPay(stop) =>
      KeptSlot(heard) && Answered(heard, AddApplicants) && Answered(heard, SelectAppointment) && (!stop ==> PaysAtOnce(heard))
    case BookProcess =>
      KeptSlot(heard) && Answered(heard, AddApplicants) && Answered(heard, SelectAppointment) && PaysAtOnce(heard)
    case BookConfirmation =>
      KeptSlot(heard) && Answered(heard, AddApplicants) && Answered(heard, SelectAppointment) && PaysAtOnce(heard)
    case BookConfirm => Completes(heard)
    case _ => true
  }

  predicate BackedProc(proc: Proc, heard: Answers) {
    !proc.point.Direct? && (proc.point.Book? ==> Backed(proc.point.book, heard))
  }

  lemma AskedIsBacked(p: Point, heard: Answers, answer: Answer)
    requires BackedProc(At(p), heard) && OperationAt(p).Ask?
    ensures BackedProc(At(After(p, Reply.Answered(answer))), heard[OperationAt(p).call := answer])
  {
  }

  lemma StaysBacked(p: Point, heard: Answers, reply: Reply)
    requires BackedProc(At(p), heard) && !OperationAt(p).Ask? && !reply.Answered?
    ensures BackedProc(At(After(p, reply)), heard)
  {
  }

  lemma AdvanceBacked(c: Case, proc: Proc, input: Input, heard: Answers)
    requires BackedProc(proc, heard)
    ensures BackedProc(Advance(c, proc, input).1,
                       if proc.At? && OperationAt(proc.point).Ask? then heard[OperationAt(proc.point).call := input.answer] else heard)
  {
    match proc
    case At(p) =>
      if OperationAt(p).Ask? {
        AskedIsBacked(p, heard, input.answer);
      } else {
        StaysBacked(p, heard, ReplyTo(c, OperationAt(p), input));
      }
    case Committing(p, _, _, _) =>
      if !OperationAt(p).Ask? {
        StaysBacked(p, heard, Moved);
      }
    case _ =>
  }

  ghost predicate AllBacked(events: seq<Event>) {
    var s := RunFrom(INITIAL, events);
    forall pid :: 0 <= pid < |s.procs| ==> ProcOk(s.procs[pid]) && BackedProc(s.procs[pid], Heard(events, pid))
  }

  lemma {:induction false} RunsAreBacked(events: seq<Event>)
    requires forall event :: event in events ==> InRepository(event)
    ensures AllBacked(events)
  {
    if events == [] {
    } else {
      var prefix, event := events[..|events| - 1], events[|events| - 1];
      assert event in events && forall x :: x in prefix ==> x in events;
      RunsAreBacked(prefix);
      RunWellFormed(INITIAL, events);
      var s, t := RunFrom(INITIAL, prefix), RunFrom(INITIAL, events);
      forall pid | 0 <= pid < |t.procs|
        ensures ProcOk(t.procs[pid]) && BackedProc(t.procs[pid], Heard(events, pid))
      {
        assert t.procs[pid] in t.procs;
        if event.Run? && event.pid == pid {
          AdvanceBacked(s.c, s.procs[pid], event.input, Heard(prefix, pid));
        }
      }
    }
  }

  // Whenever the transition service writes CONFIRMED, in whatever interleaving with the other
  // programs of the repository, it does so for an executeBooking that the adapter gave answers
  // leading there: the slot not lost, no call thrown, payment neither challenged nor deferred.
  lemma EngineConfirmsOnlyWhenAnswered(events: seq<Event>, event: Event)
    requires forall x :: x in events ==> InRepository(x)
    requires var e := Landed(RunFrom(INITIAL, events), event);
             e.Some? && e.value.actor == System && e.value.to == Confirmed
    ensures Completes(Heard(events, event.pid))
  {
    RunsAreBacked(events);
    ServiceConfirms(RunFrom(INITIAL, events).c, RunFrom(INITIAL, events).procs[event.pid]);
  }
}
