// Which slot the engine hands to beginBooking, in every interleaving. It reads the slot before it
// enters BOOKING, and reads only what the engine itself recorded.
module SlotHandover {
  import opened Wrappers
  import opened CaseStatus
  import opened CaseRecord
  import opened CaseHistory
  import opened Programs
  import opened Protocol
  import opened ProtocolTheorems
  import opened ResumeFidelity
  import opened Confirmations

  // ---- The exact condition -----------------------------------------------------------------

  // Where in the history the entry is that a program appended last.
  function LastLanding(events: seq<Event>, pid: nat): nat {
    if events == [] then 0
    else
      var prefix, event := events[..|events| - 1], events[|events| - 1];
      var s := RunFrom(INITIAL, prefix);
      if event.Run? && event.pid == pid && Landed(s, event).Some? then |s.c.history| else LastLanding(prefix, pid)
  }

  // A program is about to call beginBooking with a slot that its caller did not give.
  predicate AboutToHandOver(proc: Proc) {
    proc.At? && Begins(proc) && !proc.point.book.given
  }

  // Every such program is about to hand over the slot that was found before its booking.
  ghost predicate HandsFound(events: seq<Event>) {
    var s := RunFrom(INITIAL, events);
    forall pid :: 0 <= pid < |s.procs| && AboutToHandOver(s.procs[pid]) ==>
      HandsTheSlotFound(s.c.history, LastLanding(events, pid), s.procs[pid].point.book.slot)
  }

  // And so it was at every moment.
  ghost predicate AlwaysHandsFound(events: seq<Event>) {
    HandsFound(events) && (events == [] || AlwaysHandsFound(events[..|events| - 1]))
  }

  lemma StatusIsLast(events: seq<Event>)
    ensures RunFrom(INITIAL, events).c.status == LastStatus(RunFrom(INITIAL, events).c.history)
  {
    GaplessExactly(events);
  }

  // A program is about to hand over a slot exactly when it has just entered BOOKING with it.
  lemma HandingFollowsEntering(c: Case, proc: Proc, input: Input)
    requires ProcOk(proc)
    ensures AboutToHandOver(Advance(c, proc, input).1) <==> EntersBooking(c, proc)
    ensures AboutToHandOver(Advance(c, proc, input).1) ==>
              && Advance(c, proc, input).1.point.book.slot == proc.point.book.slot
              && Landing(c, proc) == Some(Entry(SlotFound, Booking, System, NO_META))
  {
    if proc.At? {
      PointStarts(proc.point, ReplyTo(c, OperationAt(proc.point), input));
    } else if proc.Committing? {
      PointStarts(proc.point, Moved);
    }
  }

  // The one that acts.
  lemma ActorHandsFound(c: Case, proc: Proc, input: Input)
    requires ProcOk(proc) && c.status == LastStatus(c.history)
    ensures var (c', proc') := Advance(c, proc, input);
            && (Misbooks(c, proc) ==> AboutToHandOver(proc'))
            && (AboutToHandOver(proc') ==>
                  Landing(c, proc).Some?
                  && (HandsTheSlotFound(c'.history, |c.history|, proc'.point.book.slot) <==> !Misbooks(c, proc)))
  {
    HandingFollowsEntering(c, proc, input);
    AdvanceLands(c, proc, input);
    if AboutToHandOver(Advance(c, proc, input).1) {
      var e := Entry(SlotFound, Booking, System, NO_META);
      assert Advance(c, proc, input).0.history == c.history + [e] && c.history != [];
    }
  }

  // The others.
  lemma StillHandsFound(c: Case, proc: Proc, input: Input, k: nat, slot: Option<string>)
    requires k < |c.history|
    ensures HandsTheSlotFound(Advance(c, proc, input).0.history, k, slot) <==> HandsTheSlotFound(c.history, k, slot)
  {
    AdvanceLands(c, proc, input);
  }

  lemma NextHandsFound(prefix: seq<Event>, event: Event)
    requires HandsFound(prefix)
    ensures var s, t := RunFrom(INITIAL, prefix), RunFrom(INITIAL, prefix + [event]);
            s.tally.misbooked <= t.tally.misbooked
            && (HandsFound(prefix + [event]) <==> t.tally.misbooked == s.tally.misbooked)
  {
    var events := prefix + [event];
    assert events[..|events| - 1] == prefix;
    var s, t := RunFrom(INITIAL, prefix), RunFrom(INITIAL, events);
    RunWellFormed(INITIAL, prefix);
    StatusIsLast(prefix);
    if event.Run? && event.pid < |s.procs| {
      var proc := s.procs[event.pid];
      assert proc in s.procs;
      ActorHandsFound(s.c, proc, event.input);
      forall pid | 0 <= pid < |t.procs| && pid != event.pid && AboutToHandOver(t.procs[pid])
        ensures HandsTheSlotFound(t.c.history, LastLanding(events, pid), t.procs[pid].point.book.slot)
      {
        StillHandsFound(s.c, proc, event.input, LastLanding(prefix, pid), s.procs[pid].point.book.slot);
      }
      assert AboutToHandOver(t.procs[event.pid]) ==> LastLanding(events, event.pid) == |s.c.history|;
    } else {
      forall pid | 0 <= pid < |t.procs| && AboutToHandOver(t.procs[pid])
        ensures HandsTheSlotFound(t.c.history, LastLanding(events, pid), t.procs[pid].point.book.slot)
      {
        assert pid < |s.procs| && t.procs[pid] == s.procs[pid];
      }
    }
  }

  lemma MisbookedStays(prefix: seq<Event>, event: Event)
    ensures RunFrom(INITIAL, prefix).tally.misbooked <= RunFrom(INITIAL, prefix + [event]).tally.misbooked
  {
    assert (prefix + [event])[..|prefix|] == prefix;
  }

  // In every interleaving of all programs, whoever is about to call beginBooking has the slot that
  // was found when the case entered SLOT_FOUND before that booking, at every moment of the run,
  // exactly when no booking was entered with another slot or none.
  lemma {:induction false} FoundSlotIsHandedOverExactly(events: seq<Event>)
    ensures AlwaysHandsFound(events) <==> RunFrom(INITIAL, events).tally.misbooked == 0
  {
    if events == [] {
    } else {
      var prefix, event := events[..|events| - 1], events[|events| - 1];
      FoundSlotIsHandedOverExactly(prefix);
      assert prefix + [event] == events;
      if HandsFound(prefix) {
        NextHandsFound(prefix, event);
      } else {
        MisbookedStays(prefix, event);
      }
    }
  }

  // ---- What it takes -----------------------------------------------------------------------

  // The slot a program read is what the engine had recorded, as long as the history has not grown.
  predicate ReadsTheCandidate(h: seq<Entry>, proc: Proc) {
    proc.point.Book? && proc.point.book.BookEnter? && !proc.point.book.given ==>
      && proc.point.book.readAt <= |h|
      && (proc.point.book.readAt == |h| ==> proc.point.book.slot == LatestMeta(h).slotCandidate)
  }

  // The engine records each slot it finds, and nobody else uses its name for it.
  predicate NamesTheSlot(e: Entry) {
    && (e.actor == System && e.to == SlotFound ==> e.meta.slotCandidate.Some?)
    && (e.actor == Actor.Worker ==> e.meta.slotCandidate.None?)
  }

  ghost predicate SlotsAreNamed(s: World) {
    && (forall e :: e in s.c.history ==> NamesTheSlot(e))
    && (forall p :: p in s.procs ==> !p.point.Direct? && ReadsTheCandidate(s.c.history, p))
  }

  lemma WorkersNameSlots(p: Point)
    ensures OperationAt(p).Conditional? ==> NamesTheSlot(OperationAt(p).entry)
  {
  }

  lemma EngineNamesSlots(p: Point, r: Request, current: Status)
    requires !p.Direct? && OperationAt(p) == Transition(r) && LoadCheck(r, current).None? && r.to == SlotFound
    ensures r.meta.slotCandidate.Some?
  {
  }

  lemma LandingNamesSlots(c: Case, proc: Proc)
    requires ProcOk(proc) && !proc.point.Direct? && Landing(c, proc).Some?
    ensures NamesTheSlot(Landing(c, proc).value)
  {
    if proc.At? {
      WorkersNameSlots(proc.point);
      WorkerWritesAreKnown(proc.point);
    } else if proc.request.to == SlotFound {
      EngineNamesSlots(proc.point, proc.request, proc.current);
    }
  }

  // A program comes to the booking by reading the latest entry, or with a slot from its caller.
  lemma ReadingComesFirst(p: Point, reply: Reply)
    ensures var q := After(p, reply);
            q.Book? && q.book.BookEnter? && !q.book.given ==>
              p == Book(BookSlot) && reply.Recorded? && q == Book(BookEnter(false, reply.meta.slotCandidate, reply.readAt))
  {
  }

  lemma AdvanceReads(c: Case, proc: Proc, input: Input)
    requires ReadsTheCandidate(c.history, proc)
    ensures ReadsTheCandidate(Advance(c, proc, input).0.history, Advance(c, proc, input).1)
  {
    if proc.At? {
      ReadingComesFirst(proc.point, ReplyTo(c, OperationAt(proc.point), input));
    } else if proc.Committing? {
      ReadingComesFirst(proc.point, Moved);
    }
  }

  lemma OthersRead(c: Case, proc: Proc, input: Input, other: Proc)
    requires ReadsTheCandidate(c.history, other)
    ensures ReadsTheCandidate(Advance(c, proc, input).0.history, other)
  {
    AdvanceLands(c, proc, input);
  }

  lemma NextNamesSlots(s: World, event: Event)
    requires WellFormed(s) && SlotsAreNamed(s) && InRepository(event)
    ensures SlotsAreNamed(Next(s, event))
  {
    var t := Next(s, event);
    match event
    case Launch(p) =>
      assert forall x :: x in t.procs ==> x in s.procs || x == At(p);
    case Run(pid, input) =>
      if pid < |s.procs| {
        var proc, proc' := s.procs[pid], Advance(s.c, s.procs[pid], input).1;
        assert proc in s.procs;
        StaysIndirect(s.c, proc, input);
        AdvanceReads(s.c, proc, input);
        AdvanceLands(s.c, proc, input);
        if Landing(s.c, proc).Some? {
          LandingNamesSlots(s.c, proc);
        }
        forall x | x in s.procs[pid := proc']
          ensures !x.point.Direct? && ReadsTheCandidate(t.c.history, x)
        {
          if x != proc' {
            assert x in s.procs;
            OthersRead(s.c, proc, input, x);
          }
        }
      }
  }

  lemma {:induction false} RunsNameSlots(events: seq<Event>)
    requires forall event :: event in events ==> InRepository(event)
    ensures SlotsAreNamed(RunFrom(INITIAL, events))
  {
    if events == [] {
    } else {
      var prefix, event := events[..|events| - 1], events[|events| - 1];
      assert event in events && forall x :: x in prefix ==> x in events;
      RunsNameSlots(prefix);
      RunWellFormed(INITIAL, prefix);
      NextNamesSlots(RunFrom(INITIAL, prefix), event);
    }
  }

  lemma EnteringReads(c: Case, proc: Proc)
    requires ProcOk(proc) && EntersBooking(c, proc) && ReadsTheCandidate(c.history, proc)
    requires c.status == LastStatus(c.history)
    requires forall e :: e in c.history ==> EntryOk(e) && NamesTheSlot(e)
    ensures var h := c.history;
            && h != [] && h[|h| - 1].to == SlotFound
            && (Misbooks(c, proc) ==> proc.point.book.readAt < |h| || h[|h| - 1].actor == Actor.Worker)
            && (proc.point.book.readAt == |h| ==> (Misbooks(c, proc) <==> h[|h| - 1].actor == Actor.Worker))
  {
    assert c.status == SlotFound;
    assert c.history[|c.history| - 1] in c.history;
  }

  // Among the programs of the repository a booking is entered with another slot than the one found,
  // or with none, only if the history has grown since the slot was read or the entry into SLOT_FOUND
  // is a worker's; and whenever it has not grown, exactly if that entry is a worker's.
  lemma MisbookingTakesAWorkerOrARace(events: seq<Event>, pid: nat)
    requires forall event :: event in events ==> InRepository(event)
    requires pid < |RunFrom(INITIAL, events).procs|
    requires EntersBooking(RunFrom(INITIAL, events).c, RunFrom(INITIAL, events).procs[pid])
    ensures var s := RunFrom(INITIAL, events); var h, proc := s.c.history, s.procs[pid];
            && h != [] && h[|h| - 1].to == SlotFound
            && (Misbooks(s.c, proc) ==> proc.point.book.readAt < |h| || h[|h| - 1].actor == Actor.Worker)
            && (proc.point.book.readAt == |h| ==> (Misbooks(s.c, proc) <==> h[|h| - 1].actor == Actor.Worker))
  {
    var s := RunFrom(INITIAL, events);
    assert s.procs[pid] in s.procs;
    RunWellFormed(INITIAL, events);
    RunsNameSlots(events);
    StatusIsLast(events);
    EnteringReads(s.c, s.procs[pid]);
  }
}
