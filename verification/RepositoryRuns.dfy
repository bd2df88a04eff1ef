// What holds only because of which programs the repository has: nothing in it but the engine calls
// the transition service. No program leaves SLOT_LOST, though the table has ways out of it, and
// none is challenged once payment is due.
module RepositoryRuns {
  import opened Wrappers
  import opened CaseStatus
  import opened CaseRecord
  import opened CaseHistory
  import opened Programs
  import opened Protocol
  import opened ProtocolTheorems
  import opened Confirmations
  import opened SoloRuns
  import opened Divergences
  import EngineCalls
  import WorkerJobs

  // ---- What the programs write -----------------------------------------------------------

  predicate RepositoryEntry(e: Entry) {
    EntryOk(e) && e.from != SlotLost && (e.to == HumanVerification ==> Stage(e.from) <= Stage(AppointmentSelected))
  }

  ghost predicate OfTheRepository(s: World) {
    && WellFormed(s)
    && forall p :: p in s.procs ==> !p.point.Direct?
  }

  lemma WorkersWriteSo(p: Point)
    ensures OperationAt(p).Conditional? ==> RepositoryEntry(OperationAt(p).entry)
  {
  }

  lemma EngineWritesSo(p: Point, r: Request, current: Status)
    requires !p.Direct? && OperationAt(p) == Transition(r) && LoadCheck(r, current).None?
    ensures RepositoryEntry(RequestEntry(r, current))
  {
  }

  lemma ProgramsWriteSo(c: Case, proc: Proc)
    requires ProcOk(proc) && !proc.point.Direct? && Landing(c, proc).Some?
    ensures RepositoryEntry(Landing(c, proc).value)
  {
    if proc.At? {
      WorkersWriteSo(proc.point);
      WorkerWritesAreKnown(proc.point);
    } else {
      EngineWritesSo(proc.point, proc.request, proc.current);
    }
  }

  lemma NextOfTheRepository(s: World, event: Event)
    requires OfTheRepository(s) && InRepository(event)
    ensures OfTheRepository(Next(s, event))
    ensures Landed(s, event).Some? ==> RepositoryEntry(Landed(s, event).value)
  {
    NextWellFormed(s, event);
    match event
    case Launch(p) =>
      assert forall x :: x in Next(s, event).procs ==> x in s.procs || x == At(p);
    case Run(pid, input) =>
      if pid < |s.procs| {
        var proc, proc' := s.procs[pid], Advance(s.c, s.procs[pid], input).1;
        assert proc in s.procs;
        StaysIndirect(s.c, proc, input);
        if Landing(s.c, proc).Some? {
          ProgramsWriteSo(s.c, proc);
        }
        assert forall x :: x in s.procs[pid := proc'] ==> x in s.procs || x == proc';
      }
  }

  lemma {:induction false} RunOfTheRepository(s: World, events: seq<Event>)
    requires OfTheRepository(s) && forall event :: event in events ==> InRepository(event)
    ensures OfTheRepository(RunFrom(s, events))
  {
    if events == [] {
    } else {
      var prefix, event := events[..|events| - 1], events[|events| - 1];
      assert event in events && forall x :: x in prefix ==> x in events;
      RunOfTheRepository(s, prefix);
      NextOfTheRepository(RunFrom(s, prefix), event);
    }
  }

  // ---- SLOT_LOST absorbs -------------------------------------------------------------------

  lemma NextAtSlotLost(s: World, event: Event)
    requires OfTheRepository(s) && InRepository(event) && s.c.status == SlotLost
    ensures Next(s, event).c == s.c <==> Next(s, event).tally.racy == s.tally.racy
  {
    NextLands(s, event);
    NextOfTheRepository(s, event);
  }

  // The table lets a case leave SLOT_LOST, to be monitored again or given up; no program of the
  // repository takes it out. Whatever is under way or comes later, nothing changes any more,
  // unless a write of READY lands on the case, and then something does.
  lemma {:induction false} SlotLostAbsorbs(s: World, events: seq<Event>)
    requires OfTheRepository(s) && s.c.status == SlotLost
    requires forall event :: event in events ==> InRepository(event)
    ensures RunFrom(s, events).c == s.c <==> RunFrom(s, events).tally.racy == s.tally.racy
  {
    if events == [] {
    } else {
      var prefix, event := events[..|events| - 1], events[|events| - 1];
      assert event in events && forall x :: x in prefix ==> x in events;
      SlotLostAbsorbs(s, prefix);
      HistoryIsAppendOnly(s, prefix);
      RunOfTheRepository(s, prefix);
      NextConsistency(RunFrom(s, prefix), event);
      if RunFrom(s, prefix).c == s.c {
        NextAtSlotLost(RunFrom(s, prefix), event);
      }
    }
  }

  // ---- Length of a run ---------------------------------------------------------------------

  function Rank(s: Status): int {
    if s == HumanVerification then -1 else if s == SlotLost then 8 else Stage(s)
  }

  lemma EntryRaisesRank(e: Entry)
    requires RepositoryEntry(e)
    ensures Rank(e.from) + 1 <= Rank(e.to) + if e.to == HumanVerification then 9 else 0
  {
  }

  // The length is bounded by the challenges alone.
  ghost predicate Bounded(h: seq<Entry>) {
    |h| <= 9 * Entries(h, HumanVerification) + Rank(LastStatus(h))
  }

  lemma BoundedAppend(h: seq<Entry>, e: Entry)
    requires Bounded(h) && RepositoryEntry(e) && e.from == LastStatus(h)
    ensures Bounded(h + [e])
  {
    CountAppend(h, e, HumanVerification);
    EntryRaisesRank(e);
  }

  lemma NextIsBounded(s: World, event: Event)
    requires OfTheRepository(s) && InRepository(event) && Consistent(s.c)
    requires Bounded(s.c.history) && Next(s, event).tally.racy == s.tally.racy
    ensures Bounded(Next(s, event).c.history)
  {
    NextLands(s, event);
    NextOfTheRepository(s, event);
    match Landed(s, event)
    case None =>
    case Some(e) => BoundedAppend(s.c.history, e);
  }

  lemma NoRaceBefore(prefix: seq<Event>, event: Event)
    requires forall x :: x in prefix ==> InRepository(x)
    requires Next(RunFrom(INITIAL, prefix), event).tally.racy == 0
    ensures RunFrom(INITIAL, prefix).tally.racy == 0
    ensures OfTheRepository(RunFrom(INITIAL, prefix)) && Consistent(RunFrom(INITIAL, prefix).c)
  {
    RunOfTheRepository(INITIAL, prefix);
    NextConsistency(RunFrom(INITIAL, prefix), event);
    ChainExactlyWithoutRace(prefix);
  }

  lemma {:induction false} RunStaysBounded(events: seq<Event>)
    requires forall event :: event in events ==> InRepository(event)
    requires RunFrom(INITIAL, events).tally.racy == 0
    ensures Bounded(RunFrom(INITIAL, events).c.history)
  {
    if events == [] {
    } else {
      var prefix, event := events[..|events| - 1], events[|events| - 1];
      assert event in events && forall x :: x in prefix ==> x in events;
      NoRaceBefore(prefix, event);
      RunStaysBounded(prefix);
      NextIsBounded(RunFrom(INITIAL, prefix), event);
    }
  }

  // Every run of the repository's programs, workers and reconciliation among them, without a race
  // on READY has at most 9 transitions per challenge and 10 more.
  lemma RepositoryRunIsBounded(events: seq<Event>)
    requires forall event :: event in events ==> InRepository(event)
    requires RunFrom(INITIAL, events).tally.racy == 0
    ensures var h := RunFrom(INITIAL, events).c.history; |h| <= 9 * Entries(h, HumanVerification) + 10
  {
    RunStaysBounded(events);
  }

  // ---- Runs of that length ------------------------------------------------------------------

  // A case after n transitions, v of them challenges.
  ghost predicate Grown(c: Case, n: nat, v: nat) {
    Permitted(c.history) && c.status == LastStatus(c.history) && |c.history| == n && Entries(c.history, HumanVerification) == v
  }

  lemma GrowsOn(c: Case, e: Entry, n: nat, v: nat)
    requires Grown(c, n, v) && EntryOk(e) && e.from == c.status
    ensures Grown(Case(e.to, c.history + [e]), n + 1, if e.to == HumanVerification then v + 1 else v)
  {
    PermittedAppend(c.history, e);
    CountAppend(c.history, e, HumanVerification);
  }

  // Entries that follow each other, without a challenge among them.
  ghost predicate Linked(from: Status, es: seq<Entry>) {
    && (es != [] ==> es[0].from == from)
    && (forall i, j :: 0 <= i && j == i + 1 && j < |es| ==> es[j].from == es[i].to)
    && (forall e :: e in es ==> EntryOk(e) && e.to != HumanVerification)
  }

  lemma LinkedPrefix(from: Status, es: seq<Entry>)
    requires es != [] && Linked(from, es)
    ensures var init, e := es[..|es| - 1], es[|es| - 1];
            && es == init + [e] && Linked(from, init) && EntryOk(e) && e.to != HumanVerification
            && e.from == if init == [] then from else init[|init| - 1].to
  {
    var init := es[..|es| - 1];
    assert forall x :: x in init ==> x in es;
    assert es[|es| - 1] in es;
  }

  lemma AppendedOneMore(c: Case, es: seq<Entry>, e: Entry)
    ensures Appended(c, es + [e]) == Case(e.to, Appended(c, es).history + [e])
    ensures Appended(c, es).status == if es == [] then c.status else es[|es| - 1].to
  {
    assert c.history + es + [e] == c.history + (es + [e]);
  }

  lemma {:induction false} GrowsAlong(c: Case, es: seq<Entry>, n: nat, v: nat)
    requires Grown(c, n, v) && Linked(c.status, es)
    ensures Grown(Appended(c, es), n + |es|, v)
  {
    if es == [] {
    } else {
      var init, e := es[..|es| - 1], es[|es| - 1];
      LinkedPrefix(c.status, es);
      GrowsAlong(c, init, n, v);
      AppendedOneMore(c, init, e);
      GrowsOn(Appended(c, init), e, n + |init|, v);
    }
  }

  // Out of DRAFT and signed in.
  lemma FromDraftToMonitoring(s: World, n: nat, v: nat) returns (t: World)
    requires Reachable(s) && s.c.status == Draft && Grown(s.c, n, v)
    ensures Reachable(t) && t.c.status == Monitoring && Grown(t.c, n + 3, v)
  {
    t := Readied(s);
    GrowsOn(s.c, READY_ENTRY, n, v);
    GrowsAlong(t.c, EngineCalls.AuthenticationRoute(SMOOTH, false).entries, n + 1, v);
    t := SignedIn(t, SMOOTH);
  }

  // Out of DRAFT, signed in, and a slot found, each program alone.
  lemma FromDraftToSlot(s: World, n: nat, v: nat) returns (t: World)
    requires Reachable(s) && s.c.status == Draft && Grown(s.c, n, v)
    ensures Reachable(t) && t.c.status == SlotFound && Grown(t.c, n + 4, v)
  {
    t := FromDraftToMonitoring(s, n, v);
    GrowsAlong(t.c, EngineCalls.CheckRoute(SMOOTH, t.c.status), n + 3, v);
    EngineCalls.CheckRuns(t.c, SMOOTH, 5);
    t := LaunchAlone(t, Check(CheckStart), SMOOTH, 5);
  }

  // The booking job is challenged when it asks for the payment, as late as a program can be.
  lemma ChallengedAtPayment(s: World, n: nat, v: nat) returns (t: World)
    requires Reachable(s) && s.c.status == SlotFound && Grown(s.c, n, v)
    ensures Reachable(t) && t.c.status == HumanVerification && Grown(t.c, n + 4, v + 1)
  {
    var script := But(GetPaymentState, HumanAction(Draft));
    WorkerJobs.BookingRuns(s.c, script, 9);
    PaymentChallengeTries();
    PaymentChallengeGrows(s.c, n, v);
    t := LaunchAlone(s, WorkerBook(WBookStart), script, 9);
  }

  // A write that is tried where it lands.
  lemma TriesOn(c: Case, e: Entry, es: seq<Entry>, n: nat, v: nat)
    requires Grown(c, n, v) && EntryOk(e) && e.from == c.status
    ensures var d := Case(e.to, c.history + [e]);
            && WorkerJobs.Attempts(c, [e] + es) == WorkerJobs.Attempts(d, es)
            && Grown(d, n + 1, if e.to == HumanVerification then v + 1 else v)
  {
    WorkerJobs.AttemptsOn(c, e, es);
    GrowsOn(c, e, n, v);
  }

  const CHALLENGED_AT_PAYMENT :=
    [WorkerJobs.W(SlotFound, Booking)] + ([WorkerJobs.W(Booking, AddingApplicants)]
    + ([WorkerJobs.W(AddingApplicants, AppointmentSelected)] + [WorkerJobs.ChallengeAt(AppointmentSelected, Draft)]))

  lemma PaymentChallengeTries()
    ensures WorkerJobs.BookingPlan(SlotFound, But(GetPaymentState, HumanAction(Draft))).tries == CHALLENGED_AT_PAYMENT
  {
  }

  lemma LastTriesGrow(c: Case, n: nat, v: nat)
    requires c.status == AddingApplicants && Grown(c, n, v)
    ensures var p, h := WorkerJobs.W(AddingApplicants, AppointmentSelected), WorkerJobs.ChallengeAt(AppointmentSelected, Draft);
            var d := WorkerJobs.Attempts(c, [p] + [h]); d.status == HumanVerification && Grown(d, n + 2, v + 1)
  {
    var p, h := WorkerJobs.W(AddingApplicants, AppointmentSelected), WorkerJobs.ChallengeAt(AppointmentSelected, Draft);
    TriesOn(c, p, [h], n, v);
    var d := Case(AppointmentSelected, c.history + [p]);
    WorkerJobs.OneAttempt(d, h);
    GrowsOn(d, h, n + 1, v);
  }

  lemma PaymentChallengeGrows(c: Case, n: nat, v: nat)
    requires c.status == SlotFound && Grown(c, n, v)
    ensures var d := WorkerJobs.Attempts(c, CHALLENGED_AT_PAYMENT); d.status == HumanVerification && Grown(d, n + 4, v + 1)
  {
    var b, a := WorkerJobs.W(SlotFound, Booking), WorkerJobs.W(Booking, AddingApplicants);
    var p, h := WorkerJobs.W(AddingApplicants, AppointmentSelected), WorkerJobs.ChallengeAt(AppointmentSelected, Draft);
    TriesOn(c, b, [a] + ([p] + [h]), n, v);
    var d := Case(Booking, c.history + [b]);
    TriesOn(d, a, [p] + [h], n + 1, v);
    LastTriesGrow(Case(AddingApplicants, d.history + [a]), n + 2, v);
  }

  // Challenged at the payment and resumed to DRAFT v times.
  lemma {:induction false} ThrownBackToDraft(v: nat) returns (s: World)
    ensures Reachable(s) && s.c.status == SlotFound && Grown(s.c, 9 * v + 4, v)
  {
    if v == 0 {
      InitialIsReachable();
      s := FromDraftToSlot(INITIAL, 0, 0);
    } else {
      s := ThrownBackToDraft(v - 1);
      s := ChallengedAtPayment(s, 9 * v - 5, v - 1);
      GrowsOn(s.c, WorkerJobs.W(HumanVerification, Draft), 9 * v - 1, v);
      s := WorkerResumed(s, Some(Draft));
      s := FromDraftToSlot(s, 9 * v, v);
    }
  }

  const BOOKED_AND_PAID :=
    [EngineCalls.E(SlotFound, Booking), EngineCalls.E(Booking, AddingApplicants),
     EngineCalls.E(AddingApplicants, AppointmentSelected), EngineCalls.E(AppointmentSelected, PaymentRequired),
     EngineCalls.E(PaymentRequired, PaymentProcessing), EngineCalls.E(PaymentProcessing, Confirmed)]

  lemma SmoothBooking()
    ensures EngineCalls.BookingRoute(SMOOTH).entries == BOOKED_AND_PAID
  {
  }

  lemma BookedAndPaidIsLinked()
    ensures Linked(SlotFound, BOOKED_AND_PAID)
  {
  }

  // For every number of challenges there is such a run of exactly the bounding length.
  lemma RepositoryBoundIsAttained(v: nat)
    ensures exists s :: Reachable(s) && s.tally.racy == 0 && s.c.status == Confirmed
                     && Entries(s.c.history, HumanVerification) == v && |s.c.history| == 9 * v + 10
  {
    var s := ThrownBackToDraft(v);
    SmoothBooking();
    BookedAndPaidIsLinked();
    GrowsAlong(s.c, BOOKED_AND_PAID, 9 * v + 4, v);
    EngineCalls.BookingRuns(s.c, None, SMOOTH, 20);
    s := LaunchAlone(s, Book(BookStart(None)), SMOOTH, 20);
    var events :| Reaches(events, s);
    ChainExactlyWithoutRace(events);
  }
}
