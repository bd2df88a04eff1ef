// The four calls of the orchestration engine as sequential code on the stored row. What a
// call appends and reports is read off the adapter's answers once, as a route; the sequential
// code and the program of the interleaved protocol are both proved to follow it.
module EngineCalls {
  import opened Wrappers
  import opened CaseStatus
  import opened CaseRecord
  import opened CaseHistory
  import opened Confirmations
  import opened Programs
  import opened Protocol
  import opened SoloRuns

  datatype Report =
    | SkippedAsApplied | SkippedAsStale
    | HumanActionRequired | FailedForGood | RetryLater
    | PendingNoSlot | GroupCapacityMismatch | SlotIs(slot: string)
    | SlotWasLost | AwaitingPayment | Completed
    | AdapterThrew | ServiceRaised(error: ServiceError)

  // The entries a call appends, and its report.
  datatype Route = Route(entries: seq<Entry>, report: Report)

  // ---- The routes ------------------------------------------------------------------

  function E(from: Status, to: Status): Entry {
    Entry(from, to, System, NO_META)
  }

  function ChallengeAt(from: Status, resumeTo: Status): Entry {
    Entry(from, HumanVerification, System, Meta(Some(resumeTo), None))
  }

  const NOTHING := Route([], Completed)

  function Then(e: Entry, rest: Route): Route {
    Route([e] + rest.entries, rest.report)
  }

  function ConfirmedUnlessThrown(script: Script): Route {
    if script.answer(GetConfirmation).Throws? then Route([], AdapterThrew)
    else Route([E(PaymentProcessing, Confirmed)], Completed)
  }

  function ConfirmationRoute(script: Script): Route {
    Then(E(PaymentRequired, PaymentProcessing), ConfirmedUnlessThrown(script))
  }

  function PayRoute(script: Script, stop: bool): Route {
    Then(E(AppointmentSelected, PaymentRequired), if stop then Route([], AwaitingPayment) else ConfirmationRoute(script))
  }

  // From the selected appointment on.
  function PaymentRoute(script: Script): Route {
    match script.answer(GetPaymentState)
    case Throws => Route([], AdapterThrew)
    case HumanAction(resumeTo) => Route([ChallengeAt(AppointmentSelected, resumeTo)], HumanActionRequired)
    case payment => PayRoute(script, payment.Success? && payment.data.paymentUrl)
  }

  function SelectionRoute(script: Script): Route {
    if script.answer(SelectAppointment).Throws? then Route([], AdapterThrew) else PaymentRoute(script)
  }

  function AppointmentRoute(script: Script): Route {
    Then(E(AddingApplicants, AppointmentSelected), SelectionRoute(script))
  }

  function SubmissionRoute(script: Script): Route {
    if script.answer(AddApplicants).Throws? then Route([], AdapterThrew) else AppointmentRoute(script)
  }

  // From BOOKING on, once beginBooking did not lose the slot.
  function ApplicantsRoute(script: Script): Route {
    Then(E(Booking, AddingApplicants), SubmissionRoute(script))
  }

  function ReservationRoute(script: Script): Route {
    match script.answer(BeginBooking)
    case Throws => Route([], AdapterThrew)
    case begin =>
      if begin.Success? && begin.data.outcome == LostSlot then Route([E(Booking, SlotLost)], SlotWasLost)
      else ApplicantsRoute(script)
  }

  // executeBooking, from SLOT_FOUND on.
  function BookingRoute(script: Script): Route {
    Then(E(SlotFound, Booking), ReservationRoute(script))
  }

  function ModeRoute(script: Script, waits: bool): Route {
    match script.answer(InspectRoute)
    case Throws => Route([], AdapterThrew)
    case Success(data) => Route([E(Authenticating, ModeStatus(data.waitingQueue))], Completed)
    case _ => Route([E(Authenticating, ModeStatus(waits))], Completed)
  }

  function SignInRoute(script: Script, waits: bool): Route {
    match script.answer(Authenticate)
    case Throws => Route([], AdapterThrew)
    case HumanAction(resumeTo) => Route([ChallengeAt(Authenticating, resumeTo)], HumanActionRequired)
    case PermanentFailure => Route([E(Authenticating, Failed)], FailedForGood)
    case RetryableFailure(_) => Route([], RetryLater)
    case Success(_) => ModeRoute(script, waits)
  }

  // executeAuthentication, from READY on.
  function AuthenticationRoute(script: Script, waits: bool): Route {
    Then(E(Ready, Authenticating), SignInRoute(script, waits))
  }

  predicate FindsSlot(a: Answer) {
    a.Success? && a.data.outcome == FoundSlot
  }

  function CheckRoute(script: Script, from: Status): seq<Entry> {
    var a := script.answer(CheckAvailability);
    if FindsSlot(a) then [Entry(from, SlotFound, System, Meta(None, Some(a.data.slot)))] else []
  }

  function CheckReport(script: Script): Report {
    match script.answer(CheckAvailability)
    case Throws => AdapterThrew
    case Success(data) =>
      (match data.outcome
       case CapacityMismatch => GroupCapacityMismatch
       case FoundSlot => SlotIs(data.slot)
       case _ => PendingNoSlot)
    case _ => PendingNoSlot
  }

  function ResumeRoute(c: Case): seq<Entry> {
    var target := RecordedTarget(LatestMeta(c.history));
    if CanTransition(HumanVerification, target) then [E(HumanVerification, target)] else []
  }

  // ---- The programs of the protocol, run alone, follow the routes ---------------------------

  lemma ConfirmingRuns(c: Case, script: Script, n: nat)
    requires c.status == PaymentProcessing && n > 2
    ensures Follows(c, Book(BookConfirmation), script, n, ConfirmedUnlessThrown(script).entries)
  {
    if script.answer(GetConfirmation).Throws? {
      AsksAndHalts(c, Book(BookConfirmation), GetConfirmation, script, n);
    } else {
      MovesAndHalts(c, Book(BookConfirm), Request(Confirmed, Some(PaymentProcessing), NO_META), script, n - 1);
      Asks(c, Book(BookConfirmation), GetConfirmation, Book(BookConfirm), script, n, [E(PaymentProcessing, Confirmed)]);
    }
  }

  lemma ConfirmationRuns(c: Case, script: Script, n: nat)
    requires c.status == PaymentRequired && n > 4
    ensures Follows(c, Book(BookProcess), script, n, ConfirmationRoute(script).entries)
  {
    var r := Request(PaymentProcessing, Some(PaymentRequired), NO_META);
    ConfirmingRuns(Appended(c, [RequestEntry(r, PaymentRequired)]), script, n - 2);
    Moves(c, Book(BookProcess), r, Book(BookConfirmation), script, n, ConfirmedUnlessThrown(script).entries);
  }

  lemma PayRuns(c: Case, stop: bool, script: Script, n: nat)
    requires c.status == AppointmentSelected && n > 6
    ensures Follows(c, Book(BookPay(stop)), script, n, PayRoute(script, stop).entries)
  {
    var r := Request(PaymentRequired, Some(AppointmentSelected), NO_META);
    if stop {
      MovesAndHalts(c, Book(BookPay(true)), r, script, n);
      assert PayRoute(script, true).entries == [RequestEntry(r, c.status)];
    } else {
      ConfirmationRuns(Appended(c, [RequestEntry(r, c.status)]), script, n - 2);
      Moves(c, Book(BookPay(false)), r, Book(BookProcess), script, n, ConfirmationRoute(script).entries);
    }
  }

  lemma PaymentRuns(c: Case, script: Script, n: nat)
    requires c.status == AppointmentSelected && n > 7
    ensures Follows(c, Book(BookPayment), script, n, PaymentRoute(script).entries)
  {
    var p, payment := Book(BookPayment), script.answer(GetPaymentState);
    if payment.Throws? {
      AsksAndHalts(c, p, GetPaymentState, script, n);
    } else if payment.HumanAction? {
      var q, e := Book(BookHuman(payment.resumeTo)), ChallengeAt(AppointmentSelected, payment.resumeTo);
      MovesAndHalts(c, q, Request(HumanVerification, Some(AppointmentSelected), e.meta), script, n - 1);
      Asks(c, p, GetPaymentState, q, script, n, [e]);
    } else {
      var stop := payment.Success? && payment.data.paymentUrl;
      PayRuns(c, stop, script, n - 1);
      Asks(c, p, GetPaymentState, Book(BookPay(stop)), script, n, PayRoute(script, stop).entries);
    }
  }

  lemma SelectionRuns(c: Case, script: Script, n: nat)
    requires c.status == AppointmentSelected && n > 8
    ensures Follows(c, Book(BookAppointment), script, n, SelectionRoute(script).entries)
  {
    if script.answer(SelectAppointment).Throws? {
      AsksAndHalts(c, Book(BookAppointment), SelectAppointment, script, n);
    } else {
      PaymentRuns(c, script, n - 1);
      Asks(c, Book(BookAppointment), SelectAppointment, Book(BookPayment), script, n, PaymentRoute(script).entries);
    }
  }

  lemma AppointmentRuns(c: Case, script: Script, n: nat)
    requires c.status == AddingApplicants && n > 10
    ensures Follows(c, Book(BookSelect), script, n, AppointmentRoute(script).entries)
  {
    var r := Request(AppointmentSelected, Some(AddingApplicants), NO_META);
    SelectionRuns(Appended(c, [RequestEntry(r, c.status)]), script, n - 2);
    Moves(c, Book(BookSelect), r, Book(BookAppointment), script, n, SelectionRoute(script).entries);
  }

  lemma SubmissionRuns(c: Case, script: Script, n: nat)
    requires c.status == AddingApplicants && n > 11
    ensures Follows(c, Book(BookApplicants), script, n, SubmissionRoute(script).entries)
  {
    if script.answer(AddApplicants).Throws? {
      AsksAndHalts(c, Book(BookApplicants), AddApplicants, script, n);
    } else {
      AppointmentRuns(c, script, n - 1);
      Asks(c, Book(BookApplicants), AddApplicants, Book(BookSelect), script, n, AppointmentRoute(script).entries);
    }
  }

  lemma ApplicantsRuns(c: Case, script: Script, n: nat)
    requires c.status == Booking && n > 13
    ensures Follows(c, Book(BookAdd), script, n, ApplicantsRoute(script).entries)
  {
    var r := Request(AddingApplicants, Some(Booking), NO_META);
    SubmissionRuns(Appended(c, [RequestEntry(r, c.status)]), script, n - 2);
    Moves(c, Book(BookAdd), r, Book(BookApplicants), script, n, SubmissionRoute(script).entries);
  }

  lemma ReservationRuns(c: Case, given: bool, slot: Option<string>, script: Script, n: nat)
    requires c.status == Booking && n > 14
    ensures Follows(c, Book(BookBegin(given, slot)), script, n, ReservationRoute(script).entries)
  {
    var p := Book(BookBegin(given, slot));
    var begin := script.answer(BeginBooking);
    if begin.Throws? {
      AsksAndHalts(c, p, BeginBooking, script, n);
    } else if begin.Success? && begin.data.outcome == LostSlot {
      MovesAndHalts(c, Book(BookLost), Request(SlotLost, Some(Booking), NO_META), script, n - 1);
      Asks(c, p, BeginBooking, Book(BookLost), script, n, [E(Booking, SlotLost)]);
    } else {
      ApplicantsRuns(c, script, n - 1);
      Asks(c, p, BeginBooking, Book(BookAdd), script, n, ApplicantsRoute(script).entries);
    }
  }

  lemma BookingEntered(c: Case, given: bool, slot: Option<string>, readAt: nat, script: Script, n: nat)
    requires c.status == SlotFound && n > 16
    ensures Follows(c, Book(BookEnter(given, slot, readAt)), script, n, BookingRoute(script).entries)
  {
    var r := Request(Booking, Some(SlotFound), NO_META);
    ReservationRuns(Appended(c, [RequestEntry(r, c.status)]), given, slot, script, n - 2);
    Moves(c, Book(BookEnter(given, slot, readAt)), r, Book(BookBegin(given, slot)), script, n, ReservationRoute(script).entries);
  }

  // The case is read again and, without an override, the slot.
  lemma BookingFound(c: Case, slotOverride: Option<string>, script: Script, n: nat)
    requires c.status == SlotFound && n > 18
    ensures Follows(c, Book(BookFind(true, slotOverride)), script, n, BookingRoute(script).entries)
  {
    var found, es := Book(BookFind(true, slotOverride)), BookingRoute(script).entries;
    if slotOverride.Some? {
      BookingEntered(c, true, slotOverride, 0, script, n - 1);
      Reads(c, found, Book(BookEnter(true, slotOverride, 0)), script, n, es);
    } else {
      var slot, readAt := LatestMeta(c.history).slotCandidate, |c.history|;
      BookingEntered(c, false, slot, readAt, script, n - 2);
      Reads(c, Book(BookSlot), Book(BookEnter(false, slot, readAt)), script, n - 1, es);
      Reads(c, found, Book(BookSlot), script, n, es);
    }
  }

  // executeBooking needs at most twenty operations.
  lemma BookingRuns(c: Case, slotOverride: Option<string>, script: Script, n: nat)
    requires n >= 20
    ensures Follows(c, Book(BookStart(slotOverride)), script, n, if c.status == SlotFound then BookingRoute(script).entries else [])
  {
    var start := Book(BookStart(slotOverride));
    if c.status == SlotFound {
      BookingFound(c, slotOverride, script, n - 1);
      Reads(c, start, Book(BookFind(true, slotOverride)), script, n, BookingRoute(script).entries);
    } else {
      Halts(c, script, n - 2);
      Reads(c, Book(BookFind(false, slotOverride)), Halt, script, n - 1, []);
      Reads(c, start, Book(BookFind(false, slotOverride)), script, n, []);
    }
  }

  lemma ModeRuns(c: Case, waits: bool, script: Script, n: nat)
    requires c.status == Authenticating && n > 2
    ensures Follows(c, Auth(AuthInspect(waits)), script, n, ModeRoute(script, waits).entries)
  {
    var inspection := script.answer(InspectRoute);
    if inspection.Throws? {
      AsksAndHalts(c, Auth(AuthInspect(waits)), InspectRoute, script, n);
    } else {
      var mode := if inspection.Success? then inspection.data.waitingQueue else waits;
      MovesAndHalts(c, Auth(AuthEnter(mode)), Request(ModeStatus(mode), Some(Authenticating), NO_META), script, n - 1);
      Asks(c, Auth(AuthInspect(waits)), InspectRoute, Auth(AuthEnter(mode)), script, n, [E(Authenticating, ModeStatus(mode))]);
    }
  }

  lemma SignInRuns(c: Case, waits: bool, script: Script, n: nat)
    requires c.status == Authenticating && n > 3
    ensures Follows(c, Auth(AuthCall(waits)), script, n, SignInRoute(script, waits).entries)
  {
    var p := Auth(AuthCall(waits));
    match script.answer(Authenticate)
    case HumanAction(resumeTo) =>
      MovesAndHalts(c, Auth(AuthHuman(resumeTo)),
                    Request(HumanVerification, Some(Authenticating), Meta(Some(resumeTo), None)), script, n - 1);
      Asks(c, p, Authenticate, Auth(AuthHuman(resumeTo)), script, n, [ChallengeAt(Authenticating, resumeTo)]);
    case PermanentFailure =>
      MovesAndHalts(c, Auth(AuthFail), Request(Failed, Some(Authenticating), NO_META), script, n - 1);
      Asks(c, p, Authenticate, Auth(AuthFail), script, n, [E(Authenticating, Failed)]);
    case Success(_) =>
      ModeRuns(c, waits, script, n - 1);
      Asks(c, p, Authenticate, Auth(AuthInspect(waits)), script, n, ModeRoute(script, waits).entries);
    case _ => AsksAndHalts(c, p, Authenticate, script, n);
  }

  lemma AuthenticationRuns(c: Case, waits: bool, script: Script, n: nat)
    requires n >= 7
    ensures Follows(c, Auth(AuthStart(waits)), script, n,
                    if c.status == Ready then AuthenticationRoute(script, waits).entries else [])
  {
    var r := Request(Authenticating, Some(Ready), NO_META);
    var es := if c.status == Ready then AuthenticationRoute(script, waits).entries else [];
    if c.status == Ready {
      SignInRuns(Appended(c, [RequestEntry(r, Ready)]), waits, script, n - 3);
      Moves(c, Auth(AuthBegin(waits)), r, Auth(AuthCall(waits)), script, n - 1, SignInRoute(script, waits).entries);
    } else {
      Refuses(c, Auth(AuthBegin(waits)), r, script, n - 1);
    }
    Reads(c, Auth(AuthStart(waits)), Auth(AuthBegin(waits)), script, n, es);
  }

  lemma CheckRuns(c: Case, script: Script, n: nat)
    requires n >= 5
    ensures Follows(c, Check(CheckStart), script, n,
                    if EvaluateAvailabilityCheck(c.status) == Execute then CheckRoute(script, c.status) else [])
  {
    var go := EvaluateAvailabilityCheck(c.status) == Execute;
    var es := if go then CheckRoute(script, c.status) else [];
    if !go {
      Halts(c, script, n - 2);
      Reads(c, Check(CheckFind(go)), Halt, script, n - 1, es);
    } else {
      var p, a := Check(CheckCall(c.status)), script.answer(CheckAvailability);
      if FindsSlot(a) {
        var r := Request(SlotFound, Some(c.status), Meta(None, Some(a.data.slot)));
        MovesAndHalts(c, Check(CheckFound(c.status, a.data.slot)), r, script, n - 3);
        Asks(c, p, CheckAvailability, Check(CheckFound(c.status, a.data.slot)), script, n - 2, es);
      } else {
        AsksAndHalts(c, p, CheckAvailability, script, n - 2);
      }
      Reads(c, Check(CheckFind(go)), p, script, n - 1, es);
    }
    Reads(c, Check(CheckStart), Check(CheckFind(go)), script, n, es);
  }

  lemma ResumeGoes(c: Case, script: Script, n: nat)
    requires c.status == HumanVerification && n > 2
    ensures var target := RecordedTarget(LatestMeta(c.history));
            Follows(c, Resume(ResumeGo(target)), script, n, ResumeRoute(c))
  {
    var target := RecordedTarget(LatestMeta(c.history));
    var p := Resume(ResumeGo(target));
    var r := Request(target, Some(HumanVerification), NO_META);
    if !CanTransition(HumanVerification, target) {
      Refuses(c, p, r, script, n);
    } else {
      var committing := Committing(p, r, c.status, |c.history|);
      var m := if NeedsResumeCheck(r, c.status) then n - 2 else n - 1;
      assert Alone(c, At(p), script, n) == Alone(c, Load(c, p, r), script, n - 1);
      assert Alone(c, At(p), script, n) == Alone(c, committing, script, m);
      Commits(c, p, r, |c.history|, script, m);
      Halts(Appended(c, [RequestEntry(r, c.status)]), script, m - 1);
    }
  }

  lemma ResumeRuns(c: Case, script: Script, n: nat)
    requires n >= 7
    ensures Follows(c, Resume(ResumeStart), script, n,
                    if c.status == HumanVerification && !script.answer(ResumeSession).Throws? then ResumeRoute(c) else [])
  {
    var go, es := c.status == HumanVerification, ResumeRoute(c);
    if !go {
      Halts(c, script, n - 2);
      Reads(c, Resume(ResumeFind(go)), Halt, script, n - 1, []);
      Reads(c, Resume(ResumeStart), Resume(ResumeFind(go)), script, n, []);
    } else if script.answer(ResumeSession).Throws? {
      AsksAndHalts(c, Resume(ResumeCall), ResumeSession, script, n - 2);
      Reads(c, Resume(ResumeFind(go)), Resume(ResumeCall), script, n - 1, []);
      Reads(c, Resume(ResumeStart), Resume(ResumeFind(go)), script, n, []);
    } else {
      ResumeGoes(c, script, n - 4);
      Reads(c, Resume(ResumeRead), Resume(ResumeGo(RecordedTarget(LatestMeta(c.history)))), script, n - 3, es);
      Asks(c, Resume(ResumeCall), ResumeSession, Resume(ResumeRead), script, n - 2, es);
      Reads(c, Resume(ResumeFind(go)), Resume(ResumeCall), script, n - 1, es);
      Reads(c, Resume(ResumeStart), Resume(ResumeFind(go)), script, n, es);
    }
  }

  // ---- What the routes mean ------------------------------------------------------------

  // The guards go by how far the case has come: an operation counts as already applied exactly
  // when its stage is behind the case and the case was not given up.
  lemma GuardsReadTheStage(s: Status)
    ensures EvaluateAvailabilityCheck(s) == SkippedAlreadyApplied <==>
              Stage(s) >= Stage(SlotFound) && (IsTerminal(s) ==> s == Confirmed)
    ensures EvaluateBookingExecution(s) == SkippedAlreadyApplied <==>
              Stage(s) >= Stage(Booking) && (IsTerminal(s) ==> s == Confirmed)
    ensures EvaluateSessionResume(s) == if s == HumanVerification then Execute else SkippedAlreadyApplied
  {
  }

  function AnswersOf(script: Script): Answers {
    map[BeginBooking := script.answer(BeginBooking), AddApplicants := script.answer(AddApplicants),
        SelectAppointment := script.answer(SelectAppointment), GetPaymentState := script.answer(GetPaymentState),
        GetConfirmation := script.answer(GetConfirmation)]
  }

  // A booking is confirmed exactly when the slot was not lost, no call that was reached threw
  // and payment was neither challenged nor deferred. Failures that are merely reported, even
  // of getConfirmation, do not stand in the way.
  lemma ConfirmsExactly(script: Script)
    ensures BookingRoute(script).report == Completed <==> Completes(AnswersOf(script))
  {
  }

  predicate Stranded(s: Status) {
    s in {Booking, AddingApplicants, AppointmentSelected, PaymentProcessing}
  }

  // Where the reported outcome leaves the case.
  predicate LeavesAt(report: Report, s: Status) {
    match report
    case SlotWasLost => s == SlotLost
    case HumanActionRequired => s == HumanVerification
    case AwaitingPayment => s == PaymentRequired
    case Completed => s == Confirmed
    case AdapterThrew => Stranded(s)
    case _ => false
  }

  lemma BookingReportsWhereItStopped(c: Case, script: Script)
    requires c.status == SlotFound
    ensures LeavesAt(BookingRoute(script).report, Appended(c, BookingRoute(script).entries).status)
  {
  }

  // The points of the API's programs from which a stranded case is not written.
  predicate Harmless(proc: Proc) {
    match proc
    case At(Halt) => true
    case At(Auth(p)) => p.AuthStart? || p.AuthBegin?
    case At(Check(p)) => p.CheckStart? || p == CheckFind(false)
    case At(Book(p)) => p.BookStart? || (p.BookFind? && !p.go)
    case At(Resume(p)) => p.ResumeStart? || p == ResumeFind(false)
    case At(Mark(p)) => p.MarkStart?
    case Refused(_, _) => true
    case _ => false
  }

  lemma HarmlessStep(c: Case, proc: Proc, input: Input)
    requires Stranded(c.status) && Harmless(proc)
    ensures Advance(c, proc, input).0 == c && Harmless(Advance(c, proc, input).1)
  {
  }

  // When a call that executeBooking makes throws, the case stays where that leaves it, in every
  // interleaving of any number of engine calls and markReady that come later: booking again is
  // skipped as already applied.
  lemma {:induction false} ThrownBookingIsNotRetried(s: World, events: seq<Event>)
    requires Stranded(s.c.status) && forall proc :: proc in s.procs ==> Harmless(proc)
    requires forall event :: event in events ==> ApiEvent(event)
    ensures EvaluateBookingExecution(s.c.status) == SkippedAlreadyApplied
    ensures RunFrom(s, events).c == s.c && forall proc :: proc in RunFrom(s, events).procs ==> Harmless(proc)
  {
    if events == [] {
    } else {
      var prefix, event := events[..|events| - 1], events[|events| - 1];
      assert event in events && forall x :: x in prefix ==> x in events;
      ThrownBookingIsNotRetried(s, prefix);
      var r, t := RunFrom(s, prefix), RunFrom(s, events);
      if event.Run? && event.pid < |r.procs| {
        assert r.procs[event.pid] in r.procs;
        HarmlessStep(r.c, r.procs[event.pid], event.input);
      }
      assert forall proc :: proc in t.procs ==>
          proc in r.procs || (event.Run? && proc == t.procs[event.pid]) || (event.Launch? && proc == At(event.point));
    }
  }

  // ---- The calls -------------------------------------------------------------------------

  class OrchestrationEngine {
    const row: CaseRow

    constructor (row: CaseRow)
      ensures this.row == row
    {
      this.row := row;
    }

    // A transition the state machine grants; the rest of the route goes on from there.
    method Step(from: Status, to: Status, meta: Meta, ghost rest: Route)
      requires row.status == from && from != HumanVerification && CanTransition(from, to)
      modifies row
      ensures row.status == to
      ensures row.Value() == Appended(old(row.Value()), [Entry(from, to, System, meta)])
      ensures Appended(row.Value(), rest.entries) == Appended(old(row.Value()), [Entry(from, to, System, meta)] + rest.entries)
    {
      AppendedOn(row.Value(), Entry(from, to, System, meta), rest.entries);
      var updated := row.Transition(Request(to, Some(from), meta));
    }

    method ExecuteAuthentication(waits: bool, script: Script) returns (report: Report)
      modifies row
      ensures old(row.status) == Ready ==>
                && row.Value() == Appended(old(row.Value()), AuthenticationRoute(script, waits).entries)
                && report == AuthenticationRoute(script, waits).report
      ensures old(row.status) != Ready ==>
                row.Value() == old(row.Value()) && report == ServiceRaised(StaleState(Ready, old(row.status)))
    {
      var begun := row.Transition(Request(Authenticating, Some(Ready), NO_META));
      if begun.Err? {
        return ServiceRaised(begun.error);
      }
      AppendedOn(old(row.Value()), E(Ready, Authenticating), SignInRoute(script, waits).entries);
      var authResult := script.answer(Authenticate);
      if authResult.HumanAction? {
        Step(Authenticating, HumanVerification, Meta(Some(authResult.resumeTo), None), NOTHING);
        return HumanActionRequired;
      }
      if authResult.PermanentFailure? {
        Step(Authenticating, Failed, NO_META, NOTHING);
        return FailedForGood;
      }
      if authResult.RetryableFailure? {
        return RetryLater;
      }
      if authResult.Throws? {
        return AdapterThrew;
      }
      var inspection := script.answer(InspectRoute);
      if inspection.Throws? {
        return AdapterThrew;
      }
      var waitsNow := if inspection.Success? then inspection.data.waitingQueue else waits;
      Step(Authenticating, ModeStatus(waitsNow), NO_META, NOTHING);
      report := Completed;
    }

    method ExecuteAvailabilityCheck(script: Script) returns (report: Report)
      modifies row
      ensures row.Value() == Appended(old(row.Value()), if report.SlotIs? then CheckRoute(script, old(row.status)) else [])
      ensures report == match EvaluateAvailabilityCheck(old(row.status))
                        case SkippedAlreadyApplied => SkippedAsApplied
                        case SkippedStale => SkippedAsStale
                        case Execute => CheckReport(script)
    {
      var guard := EvaluateAvailabilityCheck(row.status);
      if guard == SkippedAlreadyApplied { return SkippedAsApplied; }
      if guard == SkippedStale { return SkippedAsStale; }
      var availability := script.answer(CheckAvailability);
      if availability.Throws? { return AdapterThrew; }
      if availability.Success? {
        if availability.data.outcome == CapacityMismatch { return GroupCapacityMismatch; }
        if availability.data.outcome == FoundSlot {
          Step(row.status, SlotFound, Meta(None, Some(availability.data.slot)), NOTHING);
          return SlotIs(availability.data.slot);
        }
      }
      report := PendingNoSlot;
    }

    // The second result is the slot handed to beginBooking, or None for the one made up from
    // the preferred date.
    method ExecuteBooking(slotOverride: Option<string>, script: Script) returns (report: Report, slot: Option<string>)
      modifies row
      ensures old(row.status) == SlotFound ==>
                && row.Value() == Appended(old(row.Value()), BookingRoute(script).entries) && report == BookingRoute(script).report
                && slot == if slotOverride.Some? then slotOverride else LatestMeta(old(row.history)).slotCandidate
      ensures old(row.status) != SlotFound ==>
                row.Value() == old(row.Value())
                && report == if DownstreamOfBooking(old(row.status)) then SkippedAsApplied else SkippedAsStale
    {
      slot := slotOverride;
      var guard := EvaluateBookingExecution(row.status);
      if guard == SkippedAlreadyApplied { return SkippedAsApplied, slot; }
      if guard == SkippedStale { return SkippedAsStale, slot; }
      if slot.None? {
        var latest := row.GetLatestStateHistory();
        slot := if latest.None? then None else latest.value.meta.slotCandidate;
      }
      Step(SlotFound, Booking, NO_META, ReservationRoute(script));
      var begin := script.answer(BeginBooking);
      if begin.Throws? { return AdapterThrew, slot; }
      if begin.Success? && begin.data.outcome == LostSlot {
        Step(Booking, SlotLost, NO_META, NOTHING);
        return SlotWasLost, slot;
      }
      Step(Booking, AddingApplicants, NO_META, SubmissionRoute(script));
      if script.answer(AddApplicants).Throws? { return AdapterThrew, slot; }
      Step(AddingApplicants, AppointmentSelected, NO_META, SelectionRoute(script));
      if script.answer(SelectAppointment).Throws? { return AdapterThrew, slot; }
      report := SettlePayment(script);
    }

    // executeBooking from step 6 on.
    method SettlePayment(script: Script) returns (report: Report)
      requires row.status == AppointmentSelected
      modifies row
      ensures row.Value() == Appended(old(row.Value()), PaymentRoute(script).entries) && report == PaymentRoute(script).report
    {
      var payment := script.answer(GetPaymentState);
      if payment.Throws? { return AdapterThrew; }
      if payment.HumanAction? {
        Step(AppointmentSelected, HumanVerification, Meta(Some(payment.resumeTo), None), NOTHING);
        return HumanActionRequired;
      }
      var stop := payment.Success? && payment.data.paymentUrl;
      Step(AppointmentSelected, PaymentRequired, NO_META, if stop then NOTHING else ConfirmationRoute(script));
      if stop { return AwaitingPayment; }
      Step(PaymentRequired, PaymentProcessing, NO_META, ConfirmedUnlessThrown(script));
      if script.answer(GetConfirmation).Throws? { return AdapterThrew; }
      Step(PaymentProcessing, Confirmed, NO_META, NOTHING);
      report := Completed;
    }

    // Leaves the checkpoint to the recorded target, or to AUTHENTICATING if none was recorded.
    method ExecuteResume(script: Script) returns (report: Report)
      modifies row
      ensures row.Value() == Appended(old(row.Value()), if report == Completed then ResumeRoute(old(row.Value())) else [])
      ensures report ==
              if old(row.status) != HumanVerification then SkippedAsApplied
              else if script.answer(ResumeSession).Throws? then AdapterThrew
              else
                var target := RecordedTarget(LatestMeta(old(row.history)));
                if CanTransition(HumanVerification, target) then Completed
                else ServiceRaised(IllegalTransition(HumanVerification, target))
    {
      if EvaluateSessionResume(row.status) == SkippedAlreadyApplied { return SkippedAsApplied; }
      if script.answer(ResumeSession).Throws? { return AdapterThrew; }
      var latest := row.GetLatestStateHistory();
      var recorded := if latest.None? then None else latest.value.meta.resumeTo;
      var updated := row.Transition(Request(recorded.GetOr(Authenticating), Some(HumanVerification), NO_META));
      report := match updated case Ok(_) => Completed case Err(error) => ServiceRaised(error);
    }
  }
}
