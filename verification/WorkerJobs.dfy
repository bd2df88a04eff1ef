// The jobs of the queue workers and the reconciliation as sequential code on the stored row.
// A worker's compare-and-set may find another status, which the worker does not notice: what
// a job tries to write follows from the answers it gets alone, and the stored case decides
// what comes of it. As with the engine, the sequential code and the program of the
// interleaved protocol are both proved to follow the same plan.
module WorkerJobs {
  import opened Wrappers
  import opened CaseStatus
  import opened CaseRecord
  import opened Programs
  import opened Protocol
  import opened SoloRuns

  datatype Report =
    | Skipped | JobThrew | SlotWasLost | HumanActionRequired | FailedForGood | AwaitingPayment
    | SlotWasFound | GroupCapacityMismatch | NoSlotYet | AvailabilityError
    | NoActiveSession | SessionOwnerMismatch | StillHuman | Resumed | PaymentPending | Completed
    | Reconciled | NeedsAttention

  // The writes a job tries, and its report.
  datatype Plan = Plan(tries: seq<Entry>, report: Report)

  // ---- The plans --------------------------------------------------------------------

  function W(from: Status, to: Status): Entry {
    Entry(from, to, Worker, NO_META)
  }

  function ChallengeAt(from: Status, resumeTo: Status): Entry {
    Entry(from, HumanVerification, Worker, Meta(Some(resumeTo), None))
  }

  function FoundAt(slot: string): Entry {
    Entry(Monitoring, SlotFound, Worker, Meta(None, None, Some(slot)))
  }

  function Try(e: Entry, rest: Plan): Plan {
    Plan([e] + rest.tries, rest.report)
  }

  function PaymentPlan(script: Script): Plan {
    match script.answer(GetPaymentState)
    case Throws => Plan([], JobThrew)
    case HumanAction(resumeTo) => Plan([ChallengeAt(AppointmentSelected, resumeTo)], HumanActionRequired)
    case _ => Plan([W(AppointmentSelected, PaymentRequired)], AwaitingPayment)
  }

  function SelectionPlan(script: Script): Plan {
    match script.answer(SelectAppointment)
    case Throws => Plan([], JobThrew)
    case RetryableFailure(true) => Plan([W(AppointmentSelected, SlotLost)], SlotWasLost)
    case _ => PaymentPlan(script)
  }

  function ApplicantsPlan(script: Script): Plan {
    match script.answer(AddApplicants)
    case Throws => Plan([], JobThrew)
    case HumanAction(resumeTo) => Plan([ChallengeAt(AddingApplicants, resumeTo)], HumanActionRequired)
    case _ => Try(W(AddingApplicants, AppointmentSelected), SelectionPlan(script))
  }

  predicate LosesSlot(a: Answer) {
    (a.Success? && a.data.outcome == LostSlot) || a == RetryableFailure(true)
  }

  function ReservationPlan(script: Script): Plan {
    var begin := script.answer(BeginBooking);
    if begin.Throws? then Plan([], JobThrew)
    else if LosesSlot(begin) then Plan([W(Booking, SlotLost)], SlotWasLost)
    else Try(W(Booking, AddingApplicants), ApplicantsPlan(script))
  }

  // The booking job, begun at status s.
  function BookingPlan(s: Status, script: Script): Plan {
    if s != SlotFound then Plan([], Skipped) else Try(W(SlotFound, Booking), ReservationPlan(script))
  }

  function CheckPlan(script: Script): Plan {
    match script.answer(CheckAvailability)
    case Throws => Plan([], JobThrew)
    case HumanAction(resumeTo) => Plan([ChallengeAt(Monitoring, resumeTo)], HumanActionRequired)
    case Success(data) =>
      (match data.outcome
       case FoundSlot => Plan([FoundAt(data.slot)], SlotWasFound)
       case CapacityMismatch => Plan([], GroupCapacityMismatch)
       case NoSlot => Plan([], NoSlotYet)
       case _ => Plan([], AvailabilityError))
    case _ => Plan([], AvailabilityError)
  }

  function InspectionPlan(script: Script, waits: bool): Plan {
    match script.answer(InspectRoute)
    case HumanAction(resumeTo) => Plan([ChallengeAt(Authenticating, resumeTo)], HumanActionRequired)
    case PermanentFailure => Plan([W(Authenticating, Failed)], FailedForGood)
    case Success(_) => Try(W(Authenticating, ModeStatus(waits)), CheckPlan(script))
    case _ => Plan([], JobThrew)
  }

  function SignInPlan(script: Script, waits: bool): Plan {
    match script.answer(Authenticate)
    case HumanAction(resumeTo) => Plan([ChallengeAt(Authenticating, resumeTo)], HumanActionRequired)
    case PermanentFailure => Plan([W(Authenticating, Failed)], FailedForGood)
    case Success(_) => InspectionPlan(script, waits)
    case _ => Plan([], JobThrew)
  }

  // The availability job, begun at status s.
  function AvailabilityPlan(s: Status, script: Script, waits: bool): Plan {
    if s == Ready then Try(W(Ready, Authenticating), SignInPlan(script, waits))
    else if s == Authenticating then SignInPlan(script, waits)
    else if s == Monitoring || s == WaitingQueue then CheckPlan(script)
    else Plan([], Skipped)
  }

  function ConfirmationPlan(script: Script): Plan {
    match script.answer(GetConfirmation)
    case Throws => Plan([], JobThrew)
    case Success(_) => Plan([W(PaymentProcessing, Confirmed)], Completed)
    case _ => Plan([], PaymentPending)
  }

  function PaidPlan(script: Script): Plan {
    match script.answer(GetPaymentState)
    case Throws => Plan([], JobThrew)
    case payment =>
      if payment.Success? && payment.data.paid then Try(W(PaymentRequired, PaymentProcessing), ConfirmationPlan(script))
      else Plan([], PaymentPending)
  }

  // The session-resume job, begun at status s.
  function ResumePlan(s: Status, script: Script): Plan {
    if s != HumanVerification && s != PaymentRequired then Plan([], Skipped)
    else
      match script.session
      case NoSession => Plan([], NoActiveSession)
      case Session(owned, resumeTo) =>
        if !owned then Plan([], SessionOwnerMismatch)
        else if s == PaymentRequired then PaidPlan(script)
        else if script.answer(ResumeSession).Throws? then Plan([], JobThrew)
        else if script.answer(ResumeSession).HumanAction? then Plan([], StillHuman)
        else Plan([W(HumanVerification, resumeTo.GetOr(Monitoring))], Resumed)
  }

  function ReconcilePlan(candidate: Status, remote: RemoteState): Plan {
    if remote == RemoteConfirmed && (candidate == PaymentProcessing || candidate == PaymentRequired) then
      Plan([W(candidate, Confirmed)], Reconciled)
    else if remote == RemotePaymentRequired && candidate == AppointmentSelected then
      Plan([W(candidate, PaymentRequired)], Reconciled)
    else
      Plan([], NeedsAttention)
  }

  // ---- Tried writes -------------------------------------------------------------------

  // What comes of these writes, tried one after another.
  function Attempts(c: Case, es: seq<Entry>): Case
    decreases |es|
  {
    if es == [] then c else Attempts(CompareAndSet(c, es[0]).0, es[1..])
  }

  lemma AttemptsOn(c: Case, e: Entry, es: seq<Entry>)
    ensures Attempts(c, [e] + es) == Attempts(CompareAndSet(c, e).0, es)
  {
    assert ([e] + es)[1..] == es;
  }

  lemma OneAttempt(c: Case, e: Entry)
    ensures Attempts(c, [e]) == CompareAndSet(c, e).0
  {
    assert [e][1..] == [];
  }

  // Run alone from p, the job tries these writes and has ended after n operations.
  ghost predicate Tries(c: Case, p: Point, script: Script, n: nat, es: seq<Entry>) {
    Alone(c, At(p), script, n) == (Attempts(c, es), At(Halt))
  }

  lemma Ends(c: Case, script: Script, n: nat)
    ensures Tries(c, Halt, script, n, [])
  {
    StaysPut(c, At(Halt), script, n);
  }

  lemma Learns(c: Case, p: Point, q: Point, script: Script, n: nat, es: seq<Entry>)
    requires var op := OperationAt(p);
             (op.Find? || op.ReadSession? || op.InspectRemote? || op.Ask?)
             && After(p, ReplyTo(c, op, InputAt(At(p), script))) == q
    requires n > 0 && Tries(c, q, script, n - 1, es)
    ensures Tries(c, p, script, n, es)
  {
  }

  lemma LearnsAndEnds(c: Case, p: Point, script: Script, n: nat)
    requires var op := OperationAt(p);
             (op.Find? || op.ReadSession? || op.InspectRemote? || op.Ask?)
             && After(p, ReplyTo(c, op, InputAt(At(p), script))) == Halt
    requires n > 0
    ensures Tries(c, p, script, n, [])
  {
    Ends(c, script, n - 1);
    Learns(c, p, Halt, script, n, []);
  }

  lemma Writes(c: Case, p: Point, e: Entry, q: Point, script: Script, n: nat, es: seq<Entry>)
    requires OperationAt(p) == Conditional(e) && forall written :: After(p, Wrote(written)) == q
    requires n > 0 && Tries(CompareAndSet(c, e).0, q, script, n - 1, es)
    ensures Tries(c, p, script, n, [e] + es)
  {
    AttemptsOn(c, e, es);
  }

  lemma WritesAndEnds(c: Case, p: Point, e: Entry, script: Script, n: nat)
    requires OperationAt(p) == Conditional(e) && forall written :: After(p, Wrote(written)) == Halt
    requires n > 0
    ensures Tries(c, p, script, n, [e])
  {
    Ends(CompareAndSet(c, e).0, script, n - 1);
    Writes(c, p, e, Halt, script, n, []);
    assert [e] + [] == [e];
  }

  // The adapter's answer leads to one last write.
  lemma LearnsAndWrites(c: Case, p: Point, q: Point, e: Entry, script: Script, n: nat)
    requires OperationAt(p).Ask? && After(p, ReplyTo(c, OperationAt(p), InputAt(At(p), script))) == q
    requires OperationAt(q) == Conditional(e) && forall written :: After(q, Wrote(written)) == Halt
    requires n > 1
    ensures Tries(c, p, script, n, [e])
  {
    WritesAndEnds(c, q, e, script, n - 1);
    Learns(c, p, q, script, n, [e]);
  }

  // ---- The jobs of the protocol follow the plans -------------------------------------------

  lemma PaymentRuns(c: Case, script: Script, n: nat)
    requires n > 1
    ensures Tries(c, WorkerBook(WPayment), script, n, PaymentPlan(script).tries)
  {
    var p, payment := WorkerBook(WPayment), script.answer(GetPaymentState);
    if payment.Throws? {
      LearnsAndEnds(c, p, script, n);
    } else if payment.HumanAction? {
      LearnsAndWrites(c, p, WorkerBook(WPaymentHuman(payment.resumeTo)),
                      ChallengeAt(AppointmentSelected, payment.resumeTo), script, n);
    } else {
      LearnsAndWrites(c, p, WorkerBook(WPay), W(AppointmentSelected, PaymentRequired), script, n);
    }
  }

  lemma SelectionRuns(c: Case, script: Script, n: nat)
    requires n > 2
    ensures Tries(c, WorkerBook(WAppointment), script, n, SelectionPlan(script).tries)
  {
    var p := WorkerBook(WAppointment);
    match script.answer(SelectAppointment)
    case Throws => LearnsAndEnds(c, p, script, n);
    case RetryableFailure(true) =>
      LearnsAndWrites(c, p, WorkerBook(WAppointmentLost), W(AppointmentSelected, SlotLost), script, n);
    case _ =>
      PaymentRuns(c, script, n - 1);
      Learns(c, p, WorkerBook(WPayment), script, n, PaymentPlan(script).tries);
  }

  lemma SelectRuns(c: Case, script: Script, n: nat)
    requires n > 3
    ensures Tries(c, WorkerBook(WSelect), script, n, [W(AddingApplicants, AppointmentSelected)] + SelectionPlan(script).tries)
  {
    var e := W(AddingApplicants, AppointmentSelected);
    SelectionRuns(CompareAndSet(c, e).0, script, n - 1);
    Writes(c, WorkerBook(WSelect), e, WorkerBook(WAppointment), script, n, SelectionPlan(script).tries);
  }

  lemma ApplicantsRuns(c: Case, script: Script, n: nat)
    requires n > 4
    ensures Tries(c, WorkerBook(WApplicants), script, n, ApplicantsPlan(script).tries)
  {
    var p, added := WorkerBook(WApplicants), script.answer(AddApplicants);
    if added.Throws? {
      LearnsAndEnds(c, p, script, n);
    } else if added.HumanAction? {
      LearnsAndWrites(c, p, WorkerBook(WApplicantsHuman(added.resumeTo)), ChallengeAt(AddingApplicants, added.resumeTo), script, n);
    } else {
      SelectRuns(c, script, n - 1);
      Learns(c, p, WorkerBook(WSelect), script, n, ApplicantsPlan(script).tries);
    }
  }

  lemma AddRuns(c: Case, script: Script, n: nat)
    requires n > 5
    ensures Tries(c, WorkerBook(WBookAdd), script, n, [W(Booking, AddingApplicants)] + ApplicantsPlan(script).tries)
  {
    var e := W(Booking, AddingApplicants);
    ApplicantsRuns(CompareAndSet(c, e).0, script, n - 1);
    Writes(c, WorkerBook(WBookAdd), e, WorkerBook(WApplicants), script, n, ApplicantsPlan(script).tries);
  }

  lemma ReservationRuns(c: Case, script: Script, n: nat)
    requires n > 6
    ensures Tries(c, WorkerBook(WBookBegin), script, n, ReservationPlan(script).tries)
  {
    var p, begin := WorkerBook(WBookBegin), script.answer(BeginBooking);
    if begin.Throws? {
      LearnsAndEnds(c, p, script, n);
    } else if LosesSlot(begin) {
      LearnsAndWrites(c, p, WorkerBook(WBookLost), W(Booking, SlotLost), script, n);
    } else {
      AddRuns(c, script, n - 1);
      Learns(c, p, WorkerBook(WBookAdd), script, n, ReservationPlan(script).tries);
    }
  }

  lemma ClaimRuns(c: Case, script: Script, n: nat)
    requires n > 7
    ensures Tries(c, WorkerBook(WBookEnter), script, n, [W(SlotFound, Booking)] + ReservationPlan(script).tries)
  {
    var e := W(SlotFound, Booking);
    ReservationRuns(CompareAndSet(c, e).0, script, n - 1);
    Writes(c, WorkerBook(WBookEnter), e, WorkerBook(WBookBegin), script, n, ReservationPlan(script).tries);
  }

  lemma BookingRuns(c: Case, script: Script, n: nat)
    requires n >= 9
    ensures Tries(c, WorkerBook(WBookStart), script, n, BookingPlan(c.status, script).tries)
  {
    if c.status != SlotFound {
      LearnsAndEnds(c, WorkerBook(WBookStart), script, n);
    } else {
      ClaimRuns(c, script, n - 1);
      Learns(c, WorkerBook(WBookStart), WorkerBook(WBookEnter), script, n, BookingPlan(c.status, script).tries);
    }
  }

  lemma CheckRuns(c: Case, script: Script, n: nat)
    requires n > 1
    ensures Tries(c, WorkerCheck(WCheckCall), script, n, CheckPlan(script).tries)
  {
    var p, a := WorkerCheck(WCheckCall), script.answer(CheckAvailability);
    if a.HumanAction? {
      LearnsAndWrites(c, p, WorkerCheck(WCheckHuman(a.resumeTo)), ChallengeAt(Monitoring, a.resumeTo), script, n);
    } else if a.Success? && a.data.outcome == FoundSlot {
      LearnsAndWrites(c, p, WorkerCheck(WFound(a.data.slot)), FoundAt(a.data.slot), script, n);
    } else {
      LearnsAndEnds(c, p, script, n);
    }
  }

  lemma EnterRuns(c: Case, waits: bool, script: Script, n: nat)
    requires n > 2
    ensures Tries(c, WorkerCheck(WEnter(waits)), script, n, [W(Authenticating, ModeStatus(waits))] + CheckPlan(script).tries)
  {
    var e := W(Authenticating, ModeStatus(waits));
    CheckRuns(CompareAndSet(c, e).0, script, n - 1);
    Writes(c, WorkerCheck(WEnter(waits)), e, WorkerCheck(WCheckCall), script, n, CheckPlan(script).tries);
  }

  lemma InspectionRuns(c: Case, waits: bool, script: Script, n: nat)
    requires n > 3
    ensures Tries(c, WorkerCheck(WInspect(waits)), script, n, InspectionPlan(script, waits).tries)
  {
    var p, es := WorkerCheck(WInspect(waits)), InspectionPlan(script, waits).tries;
    match script.answer(InspectRoute)
    case HumanAction(resumeTo) =>
      LearnsAndWrites(c, p, WorkerCheck(WAuthHuman(resumeTo)), ChallengeAt(Authenticating, resumeTo), script, n);
    case PermanentFailure =>
      LearnsAndWrites(c, p, WorkerCheck(WAuthFail), W(Authenticating, Failed), script, n);
    case Success(_) =>
      EnterRuns(c, waits, script, n - 1);
      Learns(c, p, WorkerCheck(WEnter(waits)), script, n, es);
    case _ => LearnsAndEnds(c, p, script, n);
  }

  lemma SignInRuns(c: Case, waits: bool, script: Script, n: nat)
    requires n > 4
    ensures Tries(c, WorkerCheck(WAuthCall(waits)), script, n, SignInPlan(script, waits).tries)
  {
    var p, es := WorkerCheck(WAuthCall(waits)), SignInPlan(script, waits).tries;
    match script.answer(Authenticate)
    case HumanAction(resumeTo) =>
      LearnsAndWrites(c, p, WorkerCheck(WAuthHuman(resumeTo)), ChallengeAt(Authenticating, resumeTo), script, n);
    case PermanentFailure =>
      LearnsAndWrites(c, p, WorkerCheck(WAuthFail), W(Authenticating, Failed), script, n);
    case Success(_) =>
      InspectionRuns(c, waits, script, n - 1);
      Learns(c, p, WorkerCheck(WInspect(waits)), script, n, es);
    case _ => LearnsAndEnds(c, p, script, n);
  }

  lemma BeginRuns(c: Case, waits: bool, script: Script, n: nat)
    requires n > 5
    ensures Tries(c, WorkerCheck(WAuthBegin(waits)), script, n, [W(Ready, Authenticating)] + SignInPlan(script, waits).tries)
  {
    var e := W(Ready, Authenticating);
    SignInRuns(CompareAndSet(c, e).0, waits, script, n - 1);
    Writes(c, WorkerCheck(WAuthBegin(waits)), e, WorkerCheck(WAuthCall(waits)), script, n, SignInPlan(script, waits).tries);
  }

  lemma AvailabilityRuns(c: Case, waits: bool, script: Script, n: nat)
    requires n >= 7
    ensures Tries(c, WorkerCheck(WCheckStart(waits)), script, n, AvailabilityPlan(c.status, script, waits).tries)
  {
    var p := WorkerCheck(WCheckStart(waits));
    if c.status == Ready {
      BeginRuns(c, waits, script, n - 1);
      Learns(c, p, WorkerCheck(WAuthBegin(waits)), script, n, AvailabilityPlan(Ready, script, waits).tries);
    } else if c.status == Authenticating {
      SignInRuns(c, waits, script, n - 1);
      Learns(c, p, WorkerCheck(WAuthCall(waits)), script, n, SignInPlan(script, waits).tries);
    } else if c.status == Monitoring || c.status == WaitingQueue {
      CheckRuns(c, script, n - 1);
      Learns(c, p, WorkerCheck(WCheckCall), script, n, CheckPlan(script).tries);
    } else {
      LearnsAndEnds(c, p, script, n);
    }
  }

  lemma ConfirmationRuns(c: Case, script: Script, n: nat)
    requires n > 1
    ensures Tries(c, WorkerResume(WConfirmation), script, n, ConfirmationPlan(script).tries)
  {
    var p := WorkerResume(WConfirmation);
    if script.answer(GetConfirmation).Success? {
      LearnsAndWrites(c, p, WorkerResume(WConfirm), W(PaymentProcessing, Confirmed), script, n);
    } else {
      LearnsAndEnds(c, p, script, n);
    }
  }

  lemma PaidRuns(c: Case, script: Script, n: nat)
    requires n > 3
    ensures Tries(c, WorkerResume(WPaidCall), script, n, PaidPlan(script).tries)
  {
    var p, payment := WorkerResume(WPaidCall), script.answer(GetPaymentState);
    if payment.Success? && payment.data.paid {
      var e := W(PaymentRequired, PaymentProcessing);
      ConfirmationRuns(CompareAndSet(c, e).0, script, n - 2);
      Writes(c, WorkerResume(WProcess), e, WorkerResume(WConfirmation), script, n - 1, ConfirmationPlan(script).tries);
      Learns(c, p, WorkerResume(WProcess), script, n, PaidPlan(script).tries);
    } else {
      LearnsAndEnds(c, p, script, n);
    }
  }

  lemma ResumeRuns(c: Case, script: Script, n: nat)
    requires n >= 6
    ensures Tries(c, WorkerResume(WResumeStart), script, n, ResumePlan(c.status, script).tries)
  {
    var p, es, human := WorkerResume(WResumeStart), ResumePlan(c.status, script).tries, c.status == HumanVerification;
    if !human && c.status != PaymentRequired {
      LearnsAndEnds(c, p, script, n);
    } else {
      SessionRuns(c, human, script, n - 1);
      Learns(c, p, WorkerResume(WResumeSession(human)), script, n, es);
    }
  }

  lemma SessionRuns(c: Case, human: bool, script: Script, n: nat)
    requires n > 4 && c.status == if human then HumanVerification else PaymentRequired
    ensures Tries(c, WorkerResume(WResumeSession(human)), script, n, ResumePlan(c.status, script).tries)
  {
    var p, es := WorkerResume(WResumeSession(human)), ResumePlan(c.status, script).tries;
    if script.session.NoSession? || !script.session.owned {
      LearnsAndEnds(c, p, script, n);
    } else if !human {
      PaidRuns(c, script, n - 1);
      Learns(c, p, WorkerResume(WPaidCall), script, n, es);
    } else {
      var target := script.session.resumeTo.GetOr(Monitoring);
      var q, a := WorkerResume(WResumeCall(target)), script.answer(ResumeSession);
      if a.Throws? || a.HumanAction? {
        LearnsAndEnds(c, q, script, n - 1);
      } else {
        WritesAndEnds(c, WorkerResume(WResumeGo(target)), W(HumanVerification, target), script, n - 2);
        Learns(c, q, WorkerResume(WResumeGo(target)), script, n - 1, es);
      }
      Learns(c, p, q, script, n, es);
    }
  }

  // The page was read and the switch writes, or does not.
  lemma SwitchWrites(c: Case, candidate: Status, to: Status, script: Script)
    requires OperationAt(Reconcile(ReconcileWrite(candidate, to))) == Conditional(W(candidate, to))
    ensures Alone(c, At(Reconcile(ReconcileWrite(candidate, to))), script, 1) == (Attempts(c, [W(candidate, to)]), At(Halt))
  {
    OneAttempt(c, W(candidate, to));
  }

  lemma SwitchStops(c: Case, p: Point, script: Script)
    requires OperationAt(p) == Stop
    ensures Alone(c, At(p), script, 1) == (Attempts(c, []), At(p))
  {
  }

  lemma SwitchRuns(c: Case, candidate: Status, to: Status, script: Script)
    requires to == Confirmed || to == PaymentRequired
    ensures var remote := if to == Confirmed then RemoteConfirmed else RemotePaymentRequired;
            var (c', proc) := Alone(c, At(Reconcile(ReconcileWrite(candidate, to))), script, 1);
            c' == Attempts(c, ReconcilePlan(candidate, remote).tries) && proc.At? && OperationAt(proc.point).Stop?
  {
    var p := Reconcile(ReconcileWrite(candidate, to));
    if OperationAt(p).Stop? {
      SwitchStops(c, p, script);
    } else {
      SwitchWrites(c, candidate, to, script);
    }
  }

  lemma ReconcileRuns(c: Case, candidate: Status, script: Script)
    ensures var (c', proc) := Alone(c, At(Reconcile(ReconcileStart(candidate))), script, 2);
            c' == Attempts(c, ReconcilePlan(candidate, script.remote).tries) && proc.At? && OperationAt(proc.point).Stop?
  {
    var start, p := Reconcile(ReconcileStart(candidate)), AfterReconcile(ReconcileStart(candidate), Remote(script.remote));
    assert Alone(c, At(start), script, 2) == Alone(c, At(p), script, 1);
    match script.remote
    case RemoteConfirmed => SwitchRuns(c, candidate, Confirmed, script);
    case RemotePaymentRequired => SwitchRuns(c, candidate, PaymentRequired, script);
    case RemoteOther => SwitchStops(c, Halt, script);
  }

  // ---- The jobs ----------------------------------------------------------------------

  class WorkerProcess {
    const row: CaseRow

    constructor (row: CaseRow)
      ensures this.row == row
    {
      this.row := row;
    }

    // A compare-and-set whose answer is ignored; the rest of the plan goes on from there.
    method Attempt(e: Entry, ghost rest: seq<Entry>)
      modifies row
      ensures row.Value() == Attempts(old(row.Value()), [e])
      ensures Attempts(row.Value(), rest) == Attempts(old(row.Value()), [e] + rest)
    {
      AttemptsOn(row.Value(), e, rest);
      var written := row.AtomicConditionalTransition(e);
    }

    method ProcessBooking(script: Script) returns (report: Report)
      modifies row
      ensures row.Value() == Attempts(old(row.Value()), BookingPlan(old(row.status), script).tries)
      ensures report == BookingPlan(old(row.status), script).report
    {
      if row.status != SlotFound { return Skipped; }
      Attempt(W(SlotFound, Booking), ReservationPlan(script).tries);
      var begin := script.answer(BeginBooking);
      if begin.Throws? { return JobThrew; }
      if (begin.Success? && begin.data.outcome == LostSlot) || (begin.RetryableFailure? && begin.slotLost) {
        Attempt(W(Booking, SlotLost), []);
        return SlotWasLost;
      }
      Attempt(W(Booking, AddingApplicants), ApplicantsPlan(script).tries);
      report := SubmitApplicants(script);
    }

    // The booking job from step 4 on.
    method SubmitApplicants(script: Script) returns (report: Report)
      modifies row
      ensures row.Value() == Attempts(old(row.Value()), ApplicantsPlan(script).tries)
      ensures report == ApplicantsPlan(script).report
    {
      var added := script.answer(AddApplicants);
      if added.Throws? { return JobThrew; }
      if added.HumanAction? {
        Attempt(ChallengeAt(AddingApplicants, added.resumeTo), []);
        return HumanActionRequired;
      }
      Attempt(W(AddingApplicants, AppointmentSelected), SelectionPlan(script).tries);
      var selected := script.answer(SelectAppointment);
      if selected.Throws? { return JobThrew; }
      if selected.RetryableFailure? && selected.slotLost {
        Attempt(W(AppointmentSelected, SlotLost), []);
        return SlotWasLost;
      }
      report := HandPaymentOver(script);
    }

    // The booking job from step 7 on.
    method HandPaymentOver(script: Script) returns (report: Report)
      modifies row
      ensures row.Value() == Attempts(old(row.Value()), PaymentPlan(script).tries)
      ensures report == PaymentPlan(script).report
    {
      var payment := script.answer(GetPaymentState);
      if payment.Throws? { return JobThrew; }
      if payment.HumanAction? {
        Attempt(ChallengeAt(AppointmentSelected, payment.resumeTo), []);
        return HumanActionRequired;
      }
      Attempt(W(AppointmentSelected, PaymentRequired), []);
      report := AwaitingPayment;
    }

    method ProcessAvailability(waits: bool, script: Script) returns (report: Report)
      modifies row
      ensures row.Value() == Attempts(old(row.Value()), AvailabilityPlan(old(row.status), script, waits).tries)
      ensures report == AvailabilityPlan(old(row.status), script, waits).report
    {
      var seen := row.status;
      if seen != Ready && seen != Monitoring && seen != WaitingQueue && seen != Authenticating { return Skipped; }
      if seen == Ready || seen == Authenticating {
        if seen == Ready {
          Attempt(W(Ready, Authenticating), SignInPlan(script, waits).tries);
        }
        var authenticated := script.answer(Authenticate);
        if authenticated.HumanAction? {
          Attempt(ChallengeAt(Authenticating, authenticated.resumeTo), []);
          return HumanActionRequired;
        }
        if authenticated.PermanentFailure? {
          Attempt(W(Authenticating, Failed), []);
          return FailedForGood;
        }
        if !authenticated.Success? { return JobThrew; }
        var inspected := script.answer(InspectRoute);
        if inspected.HumanAction? {
          Attempt(ChallengeAt(Authenticating, inspected.resumeTo), []);
          return HumanActionRequired;
        }
        if inspected.PermanentFailure? {
          Attempt(W(Authenticating, Failed), []);
          return FailedForGood;
        }
        if !inspected.Success? { return JobThrew; }
        Attempt(W(Authenticating, ModeStatus(waits)), CheckPlan(script).tries);
      }
      report := LookForSlot(script);
    }

    // The availability job once it is signed in.
    method LookForSlot(script: Script) returns (report: Report)
      modifies row
      ensures row.Value() == Attempts(old(row.Value()), CheckPlan(script).tries)
      ensures report == CheckPlan(script).report
    {
      var availability := script.answer(CheckAvailability);
      if availability.Throws? { return JobThrew; }
      if availability.HumanAction? {
        Attempt(ChallengeAt(Monitoring, availability.resumeTo), []);
        return HumanActionRequired;
      }
      if availability.Success? {
        if availability.data.outcome == FoundSlot {
          Attempt(FoundAt(availability.data.slot), []);
          return SlotWasFound;
        }
        if availability.data.outcome == CapacityMismatch { return GroupCapacityMismatch; }
        if availability.data.outcome == NoSlot { return NoSlotYet; }
      }
      report := AvailabilityError;
    }

    method ProcessResume(script: Script) returns (report: Report)
      modifies row
      ensures row.Value() == Attempts(old(row.Value()), ResumePlan(old(row.status), script).tries)
      ensures report == ResumePlan(old(row.status), script).report
    {
      var seen := row.status;
      if seen != HumanVerification && seen != PaymentRequired { return Skipped; }
      if script.session.NoSession? { return NoActiveSession; }
      if !script.session.owned { return SessionOwnerMismatch; }
      if seen == HumanVerification {
        var resumed := script.answer(ResumeSession);
        if resumed.Throws? { return JobThrew; }
        if resumed.HumanAction? { return StillHuman; }
        Attempt(W(HumanVerification, script.session.resumeTo.GetOr(Monitoring)), []);
        return Resumed;
      }
      var payment := script.answer(GetPaymentState);
      if payment.Throws? { return JobThrew; }
      if payment.Success? && payment.data.paid {
        Attempt(W(PaymentRequired, PaymentProcessing), ConfirmationPlan(script).tries);
        var confirmation := script.answer(GetConfirmation);
        if confirmation.Throws? { return JobThrew; }
        if confirmation.Success? {
          Attempt(W(PaymentProcessing, Confirmed), []);
          return Completed;
        }
      }
      report := PaymentPending;
    }

    method ReconcileWithPage(candidate: Status, remote: RemoteState) returns (report: Report)
      modifies row
      ensures row.Value() == Attempts(old(row.Value()), ReconcilePlan(candidate, remote).tries)
      ensures report == ReconcilePlan(candidate, remote).report
    {
      match remote {
        case RemoteConfirmed =>
          if candidate == PaymentProcessing || candidate == PaymentRequired {
            Attempt(W(candidate, Confirmed), []);
            return Reconciled;
          }
        case RemotePaymentRequired =>
          if candidate == AppointmentSelected {
            Attempt(W(candidate, PaymentRequired), []);
            return Reconciled;
          }
        case RemoteOther =>
      }
      report := NeedsAttention;
    }
  }
}
