// Runs in which the case leaves the path its design describes. Each starts from a new case
// and consists of programs the repository has; most of them run alone for a while, and then
// follow the routes and plans of EngineCalls and WorkerJobs.
module Divergences {
  import opened Wrappers
  import opened CaseStatus
  import opened CaseRecord
  import opened CaseHistory
  import opened Programs
  import opened Protocol
  import opened ProtocolTheorems
  import opened ResumeFidelity
  import opened Confirmations
  import opened SoloRuns
  import EngineCalls
  import WorkerJobs

  // By a run of programs the repository has.
  ghost predicate Reachable(s: World) {
    exists events :: Reaches(events, s)
  }

  ghost predicate Reaches(events: seq<Event>, s: World) {
    RunFrom(INITIAL, events) == s && forall event :: event in events ==> InRepository(event)
  }

  lemma InitialIsReachable()
    ensures Reachable(INITIAL)
  {
    assert Reaches([], INITIAL);
  }

  lemma Go(s: World, event: Event) returns (t: World)
    requires Reachable(s) && InRepository(event)
    ensures t == Next(s, event) && Reachable(t)
  {
    var events :| Reaches(events, s);
    t := Next(s, event);
    assert (events + [event])[..|events|] == events;
    assert Reaches(events + [event], t);
  }

  // A program that runs alone for a while does so in a run of the protocol.
  lemma {:induction false} GoAlone(s: World, pid: nat, script: Script, n: nat) returns (t: World)
    requires Reachable(s) && pid < |s.procs|
    ensures Reachable(t) && t.c == Alone(s.c, s.procs[pid], script, n).0
    ensures t.procs == s.procs[pid := Alone(s.c, s.procs[pid], script, n).1]
    ensures s.tally.wbegun <= t.tally.wbegun
    decreases n
  {
    if n == 0 {
      t := s;
    } else {
      var u := Go(s, Run(pid, InputAt(s.procs[pid], script)));
      t := GoAlone(u, pid, script, n - 1);
      assert t.procs == s.procs[pid := t.procs[pid]];
    }
  }

  lemma LaunchAlone(s: World, p: Point, script: Script, n: nat) returns (t: World)
    requires Reachable(s) && IsStart(p) && !p.Direct?
    ensures Reachable(t)
    ensures t.c == Alone(s.c, At(p), script, n).0 && t.procs == s.procs + [Alone(s.c, At(p), script, n).1]
  {
    var u := Go(s, Launch(p));
    t := GoAlone(u, |s.procs|, script, n);
    assert u.procs[|s.procs| := Alone(s.c, At(p), script, n).1] == t.procs;
  }

  const FINE := Success(Data(FoundSlot, "slot", false, false, true))

  // Every call succeeds but one.
  function But(call: Call, answer: Answer): Script {
    Script((c: Call) => if c == call then answer else FINE, NoSession, RemoteOther, true)
  }

  const SMOOTH := But(Authenticate, FINE)

  // ---- Starting cases ------------------------------------------------------------------

  // No program is under way.
  ghost predicate Quiet(s: World) {
    forall proc :: proc in s.procs ==> proc == At(Halt) || proc.Refused?
  }

  lemma Readied(s: World) returns (t: World)
    requires Reachable(s) && s.c.status == Draft
    ensures Reachable(t) && t.c == WriteReady(s.c) && (Quiet(s) ==> Quiet(t))
  {
    t := LaunchAlone(s, Mark(MarkStart), SMOOTH, 2);
    MarkAlone(s.c);
  }

  lemma MarkAlone(c: Case)
    requires c.status == Draft
    ensures Alone(c, At(Mark(MarkStart)), SMOOTH, 1) == (c, At(Mark(MarkWrite)))
    ensures Alone(c, At(Mark(MarkWrite)), SMOOTH, 1) == (WriteReady(c), At(Halt))
    ensures Alone(c, At(Mark(MarkStart)), SMOOTH, 2) == (WriteReady(c), At(Halt))
  {
    assert Alone(c, At(Mark(MarkStart)), SMOOTH, 2) == Alone(c, At(Mark(MarkWrite)), SMOOTH, 1);
  }

  // executeAuthentication alone on a case that is READY.
  lemma SignedIn(s: World, script: Script) returns (t: World)
    requires Reachable(s) && s.c.status == Ready
    ensures Reachable(t) && |t.procs| == |s.procs| + 1 && s.procs <= t.procs
    ensures t.c == Appended(s.c, EngineCalls.AuthenticationRoute(script, false).entries) && (Quiet(s) ==> Quiet(t))
  {
    EngineCalls.AuthenticationRuns(s.c, false, script, 7);
    t := LaunchAlone(s, Auth(AuthStart(false)), script, 7);
  }

  const READIED := WriteReady(NEW_CASE)

  function Then(c: Case, from: Status, to: Status, actor: Actor, meta: Meta): Case {
    Case(to, c.history + [Entry(from, to, actor, meta)])
  }

  const SIGNING_IN := Then(READIED, Ready, Authenticating, System, NO_META)

  // A case that meets a challenge at the login.
  function ChallengedFor(resumeTo: Status): Case {
    Then(SIGNING_IN, Authenticating, HumanVerification, System, Meta(Some(resumeTo), None))
  }

  lemma ReachChallenge(resumeTo: Status) returns (s: World)
    ensures Reachable(s) && s.c == ChallengedFor(resumeTo)
  {
    InitialIsReachable();
    s := Readied(INITIAL);
    var script := But(Authenticate, HumanAction(resumeTo));
    s := SignedIn(s, script);
    var e := EngineCalls.E(Ready, Authenticating);
    AppendedOn(READIED, e, EngineCalls.SignInRoute(script, false).entries);
  }

  // ---- READY over a terminal status ---------------------------------------------------------

  const FAILED_CASE := Then(SIGNING_IN, Authenticating, Failed, System, NO_META)

  lemma TwoMarksValidate() returns (s: World)
    ensures Reachable(s) && s.c == NEW_CASE && s.procs == [At(Mark(MarkWrite)), At(Mark(MarkWrite))]
  {
    InitialIsReachable();
    MarkAlone(NEW_CASE);
    s := LaunchAlone(INITIAL, Mark(MarkStart), SMOOTH, 1);
    s := LaunchAlone(s, Mark(MarkStart), SMOOTH, 1);
  }

  lemma FailedWhileReadyWaits() returns (s: World)
    ensures Reachable(s) && s.c == FAILED_CASE && |s.procs| > 1 && s.procs[1] == At(Mark(MarkWrite))
  {
    s := TwoMarksValidate();
    MarkAlone(NEW_CASE);
    s := GoAlone(s, 0, SMOOTH, 1);
    var script := But(Authenticate, PermanentFailure);
    s := SignedIn(s, script);
    AppendedOn(READIED, EngineCalls.E(Ready, Authenticating), EngineCalls.SignInRoute(script, false).entries);
  }

  // Two calls of markReady validate the draft and the first writes READY; authentication fails
  // for good; then the second writes READY. The case leaves a terminal status, and its history
  // is no chain.
  lemma ReadyRevivesFailedCase()
    ensures exists s :: Reachable(s) && s.c == WriteReady(FAILED_CASE) && !Chain(s.c.history)
  {
    var s := FailedWhileReadyWaits();
    s := MarkLands(s, 1);
    NoLongerAChain(FAILED_CASE);
  }

  lemma MarkLands(s: World, pid: nat) returns (t: World)
    requires Reachable(s) && pid < |s.procs| && s.procs[pid] == At(Mark(MarkWrite))
    ensures Reachable(t) && t.c == WriteReady(s.c)
  {
    t := Go(s, Run(pid, InputAt(s.procs[pid], SMOOTH)));
  }

  lemma NoLongerAChain(c: Case)
    requires LastStatus(c.history) != Draft
    ensures !Chain(WriteReady(c).history)
  {
    ChainAppend(c.history, READY_ENTRY);
  }

  // ---- The booking worker ignores a refused write --------------------------------------

  const MONITORED := Then(SIGNING_IN, Authenticating, Monitoring, System, NO_META)
  const SLOT_IN_SIGHT := Then(MONITORED, Monitoring, SlotFound, System, Meta(None, Some("slot")))

  lemma ReachMonitored() returns (s: World)
    ensures Reachable(s) && s.c == MONITORED && Quiet(s)
  {
    InitialIsReachable();
    s := Readied(INITIAL);
    s := SignedIn(s, SMOOTH);
    AppendedOn(READIED, EngineCalls.E(Ready, Authenticating), EngineCalls.SignInRoute(SMOOTH, false).entries);
  }

  lemma ReachSlotFound() returns (s: World)
    ensures Reachable(s) && s.c == SLOT_IN_SIGHT && Quiet(s)
  {
    s := ReachMonitored();
    EngineCalls.CheckRuns(MONITORED, SMOOTH, 5);
    s := LaunchAlone(s, Check(CheckStart), SMOOTH, 5);
  }

  const START_ENTRY := Entry(SlotFound, Booking, Worker, NO_META)

  lemma JobReads(s: World) returns (t: World)
    requires Reachable(s) && s.c.status == SlotFound
    ensures Reachable(t) && t.c == s.c && t.procs == s.procs + [At(WorkerBook(WBookEnter))]
  {
    t := LaunchAlone(s, WorkerBook(WBookStart), SMOOTH, 1);
  }

  lemma JobEnters(c: Case, input: Input)
    ensures Advance(c, At(WorkerBook(WBookEnter)), input) == (CompareAndSet(c, START_ENTRY).0, At(WorkerBook(WBookBegin)))
  {
  }

  lemma JobStarts(s: World, pid: nat) returns (t: World)
    requires Reachable(s) && pid < |s.procs| && s.procs[pid] == At(WorkerBook(WBookEnter))
    ensures Reachable(t) && t.c == CompareAndSet(s.c, START_ENTRY).0 && t.procs == s.procs[pid := At(WorkerBook(WBookBegin))]
  {
    JobEnters(s.c, InputAt(s.procs[pid], SMOOTH));
    t := Go(s, Run(pid, InputAt(s.procs[pid], SMOOTH)));
  }

  lemma JobBegins(s: World, pid: nat) returns (t: World)
    requires Reachable(s) && pid < |s.procs| && s.procs[pid] == At(WorkerBook(WBookBegin))
    ensures Reachable(t) && t.c == s.c && t.procs == s.procs[pid := At(WorkerBook(WBookAdd))]
    ensures t.tally.wbegun == s.tally.wbegun + 1
  {
    t := Go(s, Run(pid, InputAt(s.procs[pid], SMOOTH)));
  }

  lemma BothJobsBegin() returns (s: World)
    ensures Reachable(s) && s.tally.wbegun >= 2 && s.c == CompareAndSet(SLOT_IN_SIGHT, START_ENTRY).0
  {
    s := ReachSlotFound();
    var n := |s.procs|;
    s := JobReads(s);
    s := JobReads(s);
    s := JobStarts(s, n);
    s := JobStarts(s, n + 1);
    s := JobBegins(s, n);
    s := JobBegins(s, n + 1);
  }

  lemma {:induction false} NoWorkerYet(h: seq<Entry>)
    requires forall e :: e in h ==> e.actor != Actor.Worker
    ensures Starts(h, Actor.Worker) == 0
  {
    if h == [] {
    } else {
      NoWorkerYet(h[..|h| - 1]);
    }
  }

  // Two booking jobs read SLOT_FOUND before either writes: both begin a booking, one is recorded.
  lemma TwoBookingJobsBookTwice()
    ensures exists s :: Reachable(s) && s.tally.wbegun >= 2 && Starts(s.c.history, Actor.Worker) == 1
  {
    var s := BothJobsBegin();
    CrossingsAppend(SLOT_IN_SIGHT.history, START_ENTRY, SlotFound, Booking, Actor.Worker);
    NoWorkerYet(SLOT_IN_SIGHT.history);
  }

  // ---- A call that throws ------------------------------------------------------------------

  lemma BookedAlone(script: Script) returns (s: World)
    ensures Reachable(s) && Quiet(s) && s.c == Appended(SLOT_IN_SIGHT, EngineCalls.BookingRoute(script).entries)
  {
    s := ReachSlotFound();
    EngineCalls.BookingRuns(s.c, None, script, 20);
    s := LaunchAlone(s, Book(BookStart(None)), script, 20);
  }

  // Whichever call of executeBooking throws, there is a run that ends there with nothing under
  // way, and from then on no interleaving of engine calls and markReady changes the case.
  lemma ThrowStrandsTheCase(script: Script) returns (s: World)
    requires EngineCalls.BookingRoute(script).report == EngineCalls.AdapterThrew
    ensures Reachable(s) && s.c == Appended(SLOT_IN_SIGHT, EngineCalls.BookingRoute(script).entries)
    ensures forall events :: (forall event :: event in events ==> ApiEvent(event)) ==> RunFrom(s, events).c == s.c
  {
    s := BookedAlone(script);
    EngineCalls.BookingReportsWhereItStopped(SLOT_IN_SIGHT, script);
    forall events | forall event :: event in events ==> ApiEvent(event)
      ensures RunFrom(s, events).c == s.c
    {
      EngineCalls.ThrownBookingIsNotRetried(s, events);
    }
  }

  // ---- A confirmation found on the provider's page -----------------------------------------------

  const PAYING := Then(Then(Then(Then(SLOT_IN_SIGHT, SlotFound, Booking, Actor.Worker, NO_META),
                                 Booking, AddingApplicants, Actor.Worker, NO_META),
                            AddingApplicants, AppointmentSelected, Actor.Worker, NO_META),
                       AppointmentSelected, PaymentRequired, Actor.Worker, NO_META)

  lemma BookingJobAlone()
    ensures Alone(SLOT_IN_SIGHT, At(WorkerBook(WBookStart)), SMOOTH, 9).0 == PAYING
  {
    var c, pay := SLOT_IN_SIGHT, WorkerJobs.W(AppointmentSelected, PaymentRequired);
    WorkerJobs.BookingRuns(c, SMOOTH, 9);
    WorkerJobs.AttemptsOn(c, START_ENTRY, WorkerJobs.ReservationPlan(SMOOTH).tries);
    c := CompareAndSet(c, START_ENTRY).0;
    WorkerJobs.AttemptsOn(c, WorkerJobs.W(Booking, AddingApplicants), WorkerJobs.ApplicantsPlan(SMOOTH).tries);
    c := CompareAndSet(c, WorkerJobs.W(Booking, AddingApplicants)).0;
    WorkerJobs.AttemptsOn(c, WorkerJobs.W(AddingApplicants, AppointmentSelected), WorkerJobs.SelectionPlan(SMOOTH).tries);
    c := CompareAndSet(c, WorkerJobs.W(AddingApplicants, AppointmentSelected)).0;
    WorkerJobs.OneAttempt(c, pay);
  }

  const ON_PAGE := SMOOTH.(remote := RemoteConfirmed)

  lemma ReconciledAlone(c: Case)
    requires c.status == PaymentRequired
    ensures Alone(c, At(Reconcile(ReconcileStart(PaymentRequired))), ON_PAGE, 2).0
         == Then(c, PaymentRequired, Confirmed, Actor.Worker, NO_META)
  {
    WorkerJobs.ReconcileRuns(c, PaymentRequired, ON_PAGE);
    WorkerJobs.OneAttempt(c, WorkerJobs.W(PaymentRequired, Confirmed));
  }

  // The booking job leaves the case at PAYMENT_REQUIRED, and the reconciliation finds it
  // confirmed: PAYMENT_PROCESSING was never entered, which is one of the two ways to leap.
  lemma ReconciledConfirmationLeaps()
    ensures exists s :: Reachable(s) && s.c.status == Confirmed && s.tally.leaps > 0
                     && !Visited(s.c.history, PaymentProcessing)
  {
    var s := ReachPaying();
    ReconciledAlone(s.c);
    var h := s.c.history + [Entry(PaymentRequired, Confirmed, Actor.Worker, NO_META)];
    s := LaunchAlone(s, Reconcile(ReconcileStart(PaymentRequired)), ON_PAGE, 2);
    NeverProcessing();
    assert h[|h| - 1] in h;
    GapIsALeap(s, PaymentProcessing);
  }

  lemma ReachPaying() returns (s: World)
    ensures Reachable(s) && s.c == PAYING
  {
    s := ReachSlotFound();
    BookingJobAlone();
    s := LaunchAlone(s, WorkerBook(WBookStart), SMOOTH, 9);
  }

  lemma NeverAppend(c: Case, from: Status, to: Status, actor: Actor, meta: Meta)
    requires !Visited(c.history, PaymentProcessing) && to != PaymentProcessing
    ensures !Visited(Then(c, from, to, actor, meta).history, PaymentProcessing)
  {
    VisitedAppend(c.history, Entry(from, to, actor, meta), PaymentProcessing);
  }

  lemma NotYetProcessing()
    ensures !Visited(SLOT_IN_SIGHT.history, PaymentProcessing)
  {
    VisitedAppend([], READY_ENTRY, PaymentProcessing);
    NeverAppend(READIED, Ready, Authenticating, System, NO_META);
    NeverAppend(SIGNING_IN, Authenticating, Monitoring, System, NO_META);
    NeverAppend(MONITORED, Monitoring, SlotFound, System, Meta(None, Some("slot")));
  }

  lemma NeverProcessing()
    ensures !Visited(Then(PAYING, PaymentRequired, Confirmed, Actor.Worker, NO_META).history, PaymentProcessing)
  {
    NotYetProcessing();
    var c := SLOT_IN_SIGHT;
    NeverAppend(c, SlotFound, Booking, Actor.Worker, NO_META);
    c := Then(c, SlotFound, Booking, Actor.Worker, NO_META);
    NeverAppend(c, Booking, AddingApplicants, Actor.Worker, NO_META);
    c := Then(c, Booking, AddingApplicants, Actor.Worker, NO_META);
    NeverAppend(c, AddingApplicants, AppointmentSelected, Actor.Worker, NO_META);
    c := Then(c, AddingApplicants, AppointmentSelected, Actor.Worker, NO_META);
    NeverAppend(c, AppointmentSelected, PaymentRequired, Actor.Worker, NO_META);
    NeverAppend(PAYING, PaymentRequired, Confirmed, Actor.Worker, NO_META);
  }

  lemma GapIsALeap(s: World, missing: Status)
    requires Reachable(s) && Visited(s.c.history, Confirmed) && OnTheWay(missing) && !Visited(s.c.history, missing)
    ensures s.tally.leaps > 0
  {
    var events :| Reaches(events, s);
    if s.tally.leaps == 0 {
      ConfirmationWithoutLeaps(events);
    }
  }

  // ---- Resuming to the wrong place -----------------------------------------------------

  function InSession(script: Script, resumeTo: Option<Status>): Script {
    script.(session := Session(true, resumeTo))
  }

  // The session-resume job alone on a case at the checkpoint.
  lemma WorkerResumed(s: World, resumeTo: Option<Status>) returns (t: World)
    requires Reachable(s) && s.c.status == HumanVerification
    ensures Reachable(t) && s.procs <= t.procs
    ensures t.c == Then(s.c, HumanVerification, resumeTo.GetOr(Monitoring), Actor.Worker, NO_META)
  {
    ResumeJobAlone(s.c, resumeTo);
    t := LaunchAlone(s, WorkerResume(WResumeStart), InSession(SMOOTH, resumeTo), 6);
  }

  lemma ResumeJobAlone(c: Case, resumeTo: Option<Status>)
    requires c.status == HumanVerification
    ensures Alone(c, At(WorkerResume(WResumeStart)), InSession(SMOOTH, resumeTo), 6)
         == (Then(c, HumanVerification, resumeTo.GetOr(Monitoring), Actor.Worker, NO_META), At(Halt))
  {
    var e := WorkerJobs.W(HumanVerification, resumeTo.GetOr(Monitoring));
    ResumeJobPlan(resumeTo);
    WorkerJobs.ResumeRuns(c, InSession(SMOOTH, resumeTo), 6);
    WorkerJobs.OneAttempt(c, e);
    assert CompareAndSet(c, e).0 == Then(c, HumanVerification, resumeTo.GetOr(Monitoring), Actor.Worker, NO_META);
  }

  lemma ResumeJobPlan(resumeTo: Option<Status>)
    ensures WorkerJobs.ResumePlan(HumanVerification, InSession(SMOOTH, resumeTo)).tries
         == [WorkerJobs.W(HumanVerification, resumeTo.GetOr(Monitoring))]
  {
  }

  // The session-resume worker takes its target from the session row, not from the history.
  lemma WorkerResumeIsUnfaithful()
    ensures exists s :: Reachable(s) && s.c.status == Monitoring && !FaithfulResumes(s.c.history)
  {
    var s := ReachChallenge(Authenticating);
    FaithfulAppend(s.c.history, Entry(HumanVerification, Monitoring, Actor.Worker, NO_META));
    s := WorkerResumed(s, None);
  }

  const RESUME_REQUEST := Request(Authenticating, Some(HumanVerification), NO_META)

  lemma ResumeReads(c: Case, n: nat)
    requires c.status == HumanVerification && LatestMeta(c.history).resumeTo == Some(Authenticating) && n >= 4
    ensures Alone(c, At(Resume(ResumeStart)), SMOOTH, n) == Alone(c, At(Resume(ResumeGo(Authenticating))), SMOOTH, n - 4)
  {
    assert Alone(c, At(Resume(ResumeStart)), SMOOTH, n) == Alone(c, At(Resume(ResumeFind(true))), SMOOTH, n - 1);
    assert Alone(c, At(Resume(ResumeFind(true))), SMOOTH, n - 1) == Alone(c, At(Resume(ResumeCall)), SMOOTH, n - 2);
    assert Alone(c, At(Resume(ResumeCall)), SMOOTH, n - 2) == Alone(c, At(Resume(ResumeRead)), SMOOTH, n - 3);
  }

  // executeResume has read the history and is about to write.
  lemma ResumeIsAboutToWrite(c: Case)
    requires c.status == HumanVerification && LatestMeta(c.history).resumeTo == Some(Authenticating)
    ensures Alone(c, At(Resume(ResumeStart)), SMOOTH, 6)
         == (c, Committing(Resume(ResumeGo(Authenticating)), RESUME_REQUEST, HumanVerification, |c.history|))
  {
    ResumeReads(c, 6);
    ResumeChecks(c);
  }

  lemma ResumeChecks(c: Case)
    requires c.status == HumanVerification && LatestMeta(c.history).resumeTo == Some(Authenticating)
    ensures Alone(c, At(Resume(ResumeGo(Authenticating))), SMOOTH, 2)
         == (c, Committing(Resume(ResumeGo(Authenticating)), RESUME_REQUEST, HumanVerification, |c.history|))
  {
    var p := Resume(ResumeGo(Authenticating));
    assert Advance(c, At(p), InputAt(At(p), SMOOTH)) == (c, Checking(p, RESUME_REQUEST, HumanVerification));
  }

  // The availability job alone, challenged again at the login.
  lemma WorkerChallenged(s: World) returns (t: World)
    requires Reachable(s) && s.c.status == Authenticating
    ensures Reachable(t) && s.procs <= t.procs
    ensures t.c == Then(s.c, Authenticating, HumanVerification, Actor.Worker, Meta(Some(Monitoring), None))
  {
    AvailabilityJobAlone(s.c);
    t := LaunchAlone(s, WorkerCheck(WCheckStart(false)), But(Authenticate, HumanAction(Monitoring)), 7);
  }

  lemma AvailabilityJobAlone(c: Case)
    requires c.status == Authenticating
    ensures Alone(c, At(WorkerCheck(WCheckStart(false))), But(Authenticate, HumanAction(Monitoring)), 7)
         == (Then(c, Authenticating, HumanVerification, Actor.Worker, Meta(Some(Monitoring), None)), At(Halt))
  {
    WorkerJobs.AvailabilityRuns(c, false, But(Authenticate, HumanAction(Monitoring)), 7);
    WorkerJobs.OneAttempt(c, WorkerJobs.ChallengeAt(Authenticating, Monitoring));
  }

  // The checkpoint that executeResume waits at was left as recorded, and another one entered.
  const SECOND_CHALLENGE :=
    Then(Then(ChallengedFor(Authenticating), HumanVerification, Authenticating, Actor.Worker, NO_META),
         Authenticating, HumanVerification, Actor.Worker, Meta(Some(Monitoring), None))

  lemma FaithfulSoFar()
    ensures FaithfulResumes(SECOND_CHALLENGE.history)
  {
    FaithfulAppend([], READY_ENTRY);
    FaithfulAppend(READIED.history, EngineCalls.E(Ready, Authenticating));
    FaithfulAppend(SIGNING_IN.history, EngineCalls.ChallengeAt(Authenticating, Authenticating));
    var c := ChallengedFor(Authenticating);
    FaithfulAppend(c.history, WorkerJobs.W(HumanVerification, Authenticating));
    FaithfulAppend(c.history + [WorkerJobs.W(HumanVerification, Authenticating)], WorkerJobs.ChallengeAt(Authenticating, Monitoring));
  }

  function WaitingSince(readAt: nat): Proc {
    Committing(Resume(ResumeGo(Authenticating)), RESUME_REQUEST, HumanVerification, readAt)
  }

  lemma ResumeIsMisled(s: World, pid: nat, readAt: nat) returns (t: World)
    requires Reachable(s) && s.c == SECOND_CHALLENGE && pid < |s.procs| && s.procs[pid] == WaitingSince(readAt)
    requires readAt < |s.c.history|
    ensures Reachable(t) && t.c.history == s.c.history + [EngineCalls.E(HumanVerification, Authenticating)] && t.tally.misled > 0
  {
    assert Misled(s.c, s.procs[pid]);
    t := Go(s, Run(pid, InputAt(s.procs[pid], SMOOTH)));
  }

  lemma ResumeWaits() returns (s: World, pid: nat)
    ensures Reachable(s) && s.c == SECOND_CHALLENGE && pid < |s.procs|
    ensures s.procs[pid] == WaitingSince(|ChallengedFor(Authenticating).history|)
  {
    s := ReachChallenge(Authenticating);
    pid := |s.procs|;
    ResumeIsAboutToWrite(s.c);
    s := LaunchAlone(s, Resume(ResumeStart), SMOOTH, 6);
    s := WorkerResumed(s, Some(Authenticating));
    s := WorkerChallenged(s);
  }

  // While executeResume is about to write, the session-resume job leaves the checkpoint, to the
  // same target, and the availability job meets another challenge; then the engine resumes from
  // that one to the target of the first: the unfaithful entry is the engine's, and it was misled.
  lemma InterleavedResumeIsUnfaithful()
    ensures exists s :: Reachable(s) && s.tally.misled > 0
                     && s.c.history == SECOND_CHALLENGE.history + [EngineCalls.E(HumanVerification, Authenticating)]
                     && FaithfulResumes(SECOND_CHALLENGE.history) && !FaithfulResumes(s.c.history)
  {
    var s, pid := ResumeWaits();
    FaithfulSoFar();
    FaithfulAppend(s.c.history, EngineCalls.E(HumanVerification, Authenticating));
    s := ResumeIsMisled(s, pid, |ChallengedFor(Authenticating).history|);
  }

  // ---- Booking another slot than the one found ---------------------------------------------------

  function Finds(found: string): Script {
    But(CheckAvailability, Success(Data(FoundSlot, found, false, false, true)))
  }

  lemma FindingPlan(found: string)
    ensures WorkerJobs.AvailabilityPlan(Monitoring, Finds(found), false).tries == [WorkerJobs.FoundAt(found)]
  {
  }

  lemma FindingJobAlone(c: Case, found: string)
    requires c.status == Monitoring
    ensures Alone(c, At(WorkerCheck(WCheckStart(false))), Finds(found), 7)
         == (Case(SlotFound, c.history + [WorkerJobs.FoundAt(found)]), At(Halt))
  {
    FindingPlan(found);
    WorkerJobs.AvailabilityRuns(c, false, Finds(found), 7);
    WorkerJobs.OneAttempt(c, WorkerJobs.FoundAt(found));
  }

  // The availability job alone finds a slot.
  lemma JobFinds(s: World, found: string) returns (t: World)
    requires Reachable(s) && s.c.status == Monitoring
    ensures Reachable(t) && s.procs <= t.procs
    ensures t.c == Case(SlotFound, s.c.history + [WorkerJobs.FoundAt(found)])
  {
    FindingJobAlone(s.c, found);
    t := LaunchAlone(s, WorkerCheck(WCheckStart(false)), Finds(found), 7);
  }

  // executeBooking has read its slot and is about to enter BOOKING.
  function Entering(slot: Option<string>, readAt: nat): Proc {
    Committing(Book(BookEnter(false, slot, readAt)), Request(Booking, Some(SlotFound), NO_META), SlotFound, readAt)
  }

  lemma SlotReads(c: Case)
    requires c.status == SlotFound
    ensures Alone(c, At(Book(BookSlot)), SMOOTH, 2) == (c, Entering(LatestMeta(c.history).slotCandidate, |c.history|))
  {
    var enter := Book(BookEnter(false, LatestMeta(c.history).slotCandidate, |c.history|));
    assert Alone(c, At(Book(BookSlot)), SMOOTH, 2) == Alone(c, At(enter), SMOOTH, 1);
  }

  lemma BookingReads(c: Case)
    requires c.status == SlotFound
    ensures Alone(c, At(Book(BookStart(None))), SMOOTH, 4) == (c, Entering(LatestMeta(c.history).slotCandidate, |c.history|))
  {
    assert Alone(c, At(Book(BookStart(None))), SMOOTH, 4) == Alone(c, At(Book(BookFind(true, None))), SMOOTH, 3);
    assert Alone(c, At(Book(BookFind(true, None))), SMOOTH, 3) == Alone(c, At(Book(BookSlot)), SMOOTH, 2);
    SlotReads(c);
  }

  lemma EnteringCommits(c: Case, slot: Option<string>, readAt: nat, input: Input)
    requires c.status == SlotFound
    ensures Advance(c, Entering(slot, readAt), input)
         == (Case(Booking, c.history + [EngineCalls.E(SlotFound, Booking)]), At(Book(BookBegin(false, slot))))
  {
  }

  lemma BookingMisbooks(s: World, pid: nat, slot: Option<string>, readAt: nat) returns (t: World)
    requires Reachable(s) && pid < |s.procs| && s.procs[pid] == Entering(slot, readAt) && s.c.status == SlotFound
    requires slot.None? || slot != FoundIn(LatestMeta(s.c.history))
    ensures Reachable(t) && t.c.history == s.c.history + [EngineCalls.E(SlotFound, Booking)]
    ensures pid < |t.procs| && t.procs[pid] == At(Book(BookBegin(false, slot))) && t.tally.misbooked > 0
  {
    EnteringCommits(s.c, slot, readAt, InputAt(s.procs[pid], SMOOTH));
    assert Misbooks(s.c, s.procs[pid]);
    t := Go(s, Run(pid, InputAt(s.procs[pid], SMOOTH)));
  }

  // It does so alone.
  lemma BookingWaits(s: World) returns (t: World, pid: nat)
    requires Reachable(s) && s.c.status == SlotFound
    ensures Reachable(t) && t.c == s.c && pid == |s.procs| < |t.procs|
    ensures t.procs[pid] == Entering(LatestMeta(s.c.history).slotCandidate, |s.c.history|)
  {
    pid := |s.procs|;
    BookingReads(s.c);
    t := LaunchAlone(s, Book(BookStart(None)), SMOOTH, 4);
  }

  // The availability job finds a slot and executeBooking, which nothing disturbs, is about to call
  // beginBooking with a made-up one.
  lemma WorkersSlotIsNotBooked()
    ensures exists s, pid :: Reachable(s) && 0 <= pid < |s.procs| && s.procs[pid] == At(Book(BookBegin(false, None)))
                          && s.c.history == MONITORED.history + [WorkerJobs.FoundAt("slot")] + [EngineCalls.E(SlotFound, Booking)]
                          && s.tally.misbooked > 0
  {
    var s := ReachMonitored();
    s := JobFinds(s, "slot");
    var pid;
    s, pid := BookingWaits(s);
    s := BookingMisbooks(s, pid, None, |s.c.history|);
  }

  const CHALLENGED_AT_APPLICANTS :=
    [START_ENTRY] + ([WorkerJobs.W(Booking, AddingApplicants)] + [WorkerJobs.ChallengeAt(AddingApplicants, Monitoring)])

  lemma ChallengedTries(script: Script)
    requires script.answer(AddApplicants) == HumanAction(Monitoring) && script.answer(BeginBooking) == FINE
    ensures WorkerJobs.BookingPlan(SlotFound, script).tries == CHALLENGED_AT_APPLICANTS
  {
  }

  lemma ChallengedCase(c: Case)
    requires c.status == SlotFound
    ensures WorkerJobs.Attempts(c, CHALLENGED_AT_APPLICANTS).status == HumanVerification
  {
    var add, challenge := WorkerJobs.W(Booking, AddingApplicants), WorkerJobs.ChallengeAt(AddingApplicants, Monitoring);
    WorkerJobs.AttemptsOn(c, START_ENTRY, [add] + [challenge]);
    var d := CompareAndSet(c, START_ENTRY).0;
    WorkerJobs.AttemptsOn(d, add, [challenge]);
    WorkerJobs.OneAttempt(CompareAndSet(d, add).0, challenge);
  }

  // The booking job, challenged when it adds the applicants.
  lemma JobChallenged(s: World) returns (t: World)
    requires Reachable(s) && s.c.status == SlotFound
    ensures Reachable(t) && s.procs <= t.procs && t.c.status == HumanVerification
  {
    var script := But(AddApplicants, HumanAction(Monitoring));
    ChallengedTries(script);
    ChallengedCase(s.c);
    WorkerJobs.BookingRuns(s.c, script, 9);
    t := LaunchAlone(s, WorkerBook(WBookStart), script, 9);
  }

  lemma SlotIsRead() returns (s: World, pid: nat, readAt: nat)
    ensures Reachable(s) && pid < |s.procs| && s.procs[pid] == Entering(Some("slot"), readAt) && s.c.status == SlotFound
  {
    s := ReachSlotFound();
    SlotIsRecorded();
    readAt := |s.c.history|;
    s, pid := BookingWaits(s);
  }

  lemma SlotIsRecorded()
    ensures LatestMeta(SLOT_IN_SIGHT.history).slotCandidate == Some("slot")
  {
  }

  lemma OtherSlotIsFound() returns (s: World, pid: nat, readAt: nat)
    ensures Reachable(s) && pid < |s.procs| && s.procs[pid] == Entering(Some("slot"), readAt)
    ensures s.c.status == SlotFound && s.c.history != [] && s.c.history[|s.c.history| - 1] == WorkerJobs.FoundAt("other")
  {
    s, pid, readAt := SlotIsRead();
    s := JobChallenged(s);
    s := WorkerResumed(s, Some(Monitoring));
    s := JobFinds(s, "other");
  }

  // executeBooking reads the slot; before it enters BOOKING the booking job books and is
  // challenged, the session-resume job has the case monitored again, and the availability job finds
  // another slot. executeBooking enters BOOKING and is about to hand over the first one. The workers
  // take no lock, so no lock has to lapse for this.
  lemma StaleSlotIsBooked()
    ensures exists s, pid :: Reachable(s) && 0 <= pid < |s.procs| && s.procs[pid] == At(Book(BookBegin(false, Some("slot"))))
                          && |s.c.history| > 1 && s.c.history[|s.c.history| - 2] == WorkerJobs.FoundAt("other")
                          && s.c.history[|s.c.history| - 1] == EngineCalls.E(SlotFound, Booking)
                          && s.tally.misbooked > 0
  {
    var s, pid, readAt := OtherSlotIsFound();
    s := BookingMisbooks(s, pid, Some("slot"), readAt);
  }

  // ---- Past the booking ------------------------------------------------------------------------

  lemma ResumeToPayment(c: Case)
    requires c.status == HumanVerification && LatestMeta(c.history).resumeTo == Some(PaymentRequired)
    ensures Alone(c, At(Resume(ResumeStart)), SMOOTH, 7).0 == Then(c, HumanVerification, PaymentRequired, System, NO_META)
  {
    EngineCalls.ResumeRuns(c, SMOOTH, 7);
  }

  lemma PaymentIsFound(c: Case)
    requires c.status == PaymentRequired
    ensures Alone(c, At(WorkerResume(WResumeStart)), InSession(SMOOTH, None), 6).0
         == Case(Confirmed, c.history + [WorkerJobs.W(PaymentRequired, PaymentProcessing), WorkerJobs.W(PaymentProcessing, Confirmed)])
  {
    var paid, confirmed := WorkerJobs.W(PaymentRequired, PaymentProcessing), WorkerJobs.W(PaymentProcessing, Confirmed);
    WorkerJobs.ResumeRuns(c, InSession(SMOOTH, None), 6);
    WorkerJobs.AttemptsOn(c, paid, [confirmed]);
    WorkerJobs.OneAttempt(CompareAndSet(c, paid).0, confirmed);
    assert c.history + [paid] + [confirmed] == c.history + [paid, confirmed];
  }

  const TO_PAYMENT := Then(ChallengedFor(PaymentRequired), HumanVerification, PaymentRequired, System, NO_META)

  lemma ReachPayment() returns (s: World)
    ensures Reachable(s) && s.c == TO_PAYMENT
  {
    s := ReachChallenge(PaymentRequired);
    ResumeToPayment(s.c);
    s := LaunchAlone(s, Resume(ResumeStart), SMOOTH, 7);
  }

  // A challenge at the login records a payment status; executeResume follows it, as it must,
  // and the session-resume job finds the payment made. The history is a faithful chain of edges of
  // the table, ends in a confirmation and has no slot and no booking in it.
  lemma CarelessResumeSkipsTheBooking()
    ensures exists s :: Reachable(s) && s.c.status == Confirmed && s.tally.leaps > 0
                     && Canonical(s.c.history) && FaithfulResumes(s.c.history)
                     && !Visited(s.c.history, SlotFound) && !Visited(s.c.history, Booking)
  {
    var s := ReachPayment();
    PaymentIsFound(TO_PAYMENT);
    s := LaunchAlone(s, WorkerResume(WResumeStart), InSession(SMOOTH, None), 6);
    SkippingHistory();
    assert s.c.history[|s.c.history| - 1] in s.c.history;
    GapIsALeap(s, SlotFound);
  }

  // Appending keeps all of this, unless the entry itself breaks it.
  lemma SkippingAppend(h: seq<Entry>, e: Entry)
    requires Skipping(h) && e.from == LastStatus(h) && CanTransition(e.from, e.to)
    requires e.to != SlotFound && e.to != Booking && (e.from == HumanVerification ==> !OffTarget(h, e.to))
    ensures Skipping(h + [e])
  {
    ChainAppend(h, e);
    FaithfulAppend(h, e);
    assert forall x :: x in h + [e] ==> x in h || x == e;
  }

  ghost predicate Skipping(h: seq<Entry>) {
    Canonical(h) && FaithfulResumes(h) && !Visited(h, SlotFound) && !Visited(h, Booking)
  }

  lemma SkippingChallenge()
    ensures Skipping(ChallengedFor(PaymentRequired).history)
  {
    SkippingAppend([], READY_ENTRY);
    SkippingAppend(READIED.history, EngineCalls.E(Ready, Authenticating));
    SkippingAppend(SIGNING_IN.history, EngineCalls.ChallengeAt(Authenticating, PaymentRequired));
  }

  lemma SkippingPayment(h: seq<Entry>)
    requires Skipping(h) && LastStatus(h) == PaymentRequired
    ensures Skipping(h + [WorkerJobs.W(PaymentRequired, PaymentProcessing), WorkerJobs.W(PaymentProcessing, Confirmed)])
  {
    var paid, confirmed := WorkerJobs.W(PaymentRequired, PaymentProcessing), WorkerJobs.W(PaymentProcessing, Confirmed);
    SkippingAppend(h, paid);
    SkippingAppend(h + [paid], confirmed);
    assert h + [paid] + [confirmed] == h + [paid, confirmed];
  }

  lemma SkippingHistory()
    ensures Skipping(TO_PAYMENT.history + [WorkerJobs.W(PaymentRequired, PaymentProcessing), WorkerJobs.W(PaymentProcessing, Confirmed)])
  {
    SkippingChallenge();
    SkippingAppend(ChallengedFor(PaymentRequired).history, EngineCalls.E(HumanVerification, PaymentRequired));
    SkippingPayment(TO_PAYMENT.history);
  }
}
