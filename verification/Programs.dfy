// The programs that act on a case: the four engine calls, the queue workers' jobs, the
// reconciliation job and markReady. Each await of the source is one program point. A
// point names the operation performed there, and a function of the reply says where the
// program goes next. The provider adapter may answer anything at all.
module Programs {
  import opened Wrappers
  import opened CaseStatus
  import opened CaseRecord

  datatype Outcome = Plain | NoSlot | CapacityMismatch | FoundSlot | LostSlot

  // The fields of a successful adapter answer that some program looks at.
  datatype Data = Data(outcome: Outcome, slot: string, waitingQueue: bool, paymentUrl: bool, paid: bool)

  datatype Answer =
    | Success(data: Data)
    | HumanAction(resumeTo: Status)
    | RetryableFailure(slotLost: bool)
    | PermanentFailure
    | Throws

  // The automation session row the resume worker looks at.
  datatype Session = NoSession | Session(owned: bool, resumeTo: Option<Status>)

  datatype RemoteState = RemoteConfirmed | RemotePaymentRequired | RemoteOther

  datatype Call =
    | Authenticate | InspectRoute | CheckAvailability | BeginBooking | AddApplicants
    | SelectAppointment | GetPaymentState | GetConfirmation | ResumeSession

  datatype Operation =
    | Stop
    | Find                       // read the status
    | Latest                     // read the latest history entry
    | Ask(call: Call)            // call the provider adapter
    | ReadSession
    | InspectRemote
    | Validate                   // read the case and evaluate the readiness rules
    | Transition(request: Request)   // CaseTransitionService.transition
    | Conditional(entry: Entry)      // WorkerRepository.atomicConditionalTransition
    | MarkReady                      // BookingCasesRepository.transitionToReady

  datatype Reply =
    | Saw(status: Status)
    | Recorded(meta: Meta, readAt: nat)   // and how long the history was
    | Answered(answer: Answer)
    | SessionRow(session: Session)
    | Remote(remote: RemoteState)
    | Validated(status: Status, rulesHold: bool)
    | Moved
    | Wrote(written: bool)

  // executeAuthentication; waits is the booking mode configured for the route
  datatype AuthPoint =
    | AuthStart(waits: bool)
    | AuthBegin(waits: bool)
    | AuthCall(waits: bool)
    | AuthHuman(resumeTo: Status)
    | AuthFail
    | AuthInspect(waits: bool)
    | AuthEnter(waits: bool)

  // executeAvailabilityCheck
  datatype CheckPoint =
    | CheckStart
    | CheckFind(go: bool)
    | CheckCall(seen: Status)
    | CheckFound(seen: Status, found: string)

  // executeBooking; a slot of None stands for the one built from the preferred date, and readAt
  // is how long the history was when the slot was read, if it was
  datatype BookPoint =
    | BookStart(slotOverride: Option<string>)
    | BookFind(go: bool, slotOverride: Option<string>)
    | BookSlot
    | BookEnter(given: bool, slot: Option<string>, readAt: nat)
    | BookBegin(given: bool, slot: Option<string>)
    | BookLost
    | BookAdd
    | BookApplicants
    | BookSelect
    | BookAppointment
    | BookPayment
    | BookHuman(resumeTo: Status)
    | BookPay(stop: bool)
    | BookProcess
    | BookConfirmation
    | BookConfirm

  // executeResume
  datatype ResumePoint =
    | ResumeStart
    | ResumeFind(go: bool)
    | ResumeCall
    | ResumeRead
    | ResumeGo(target: Status)

  // availability worker
  datatype WorkerCheckPoint =
    | WCheckStart(waits: bool)
    | WAuthBegin(waits: bool)
    | WAuthCall(waits: bool)
    | WAuthHuman(resumeTo: Status)
    | WAuthFail
    | WInspect(waits: bool)
    | WEnter(waits: bool)
    | WCheckCall
    | WCheckHuman(resumeTo: Status)
    | WFound(found: string)

  // booking worker
  datatype WorkerBookPoint =
    | WBookStart
    | WBookEnter
    | WBookBegin
    | WBookLost
    | WBookAdd
    | WApplicants
    | WApplicantsHuman(resumeTo: Status)
    | WSelect
    | WAppointment
    | WAppointmentLost
    | WPayment
    | WPaymentHuman(resumeTo: Status)
    | WPay

  // session-resume worker
  datatype WorkerResumePoint =
    | WResumeStart
    | WResumeSession(human: bool)
    | WResumeCall(target: Status)
    | WResumeGo(target: Status)
    | WPaidCall
    | WProcess
    | WConfirmation
    | WConfirm

  // reconciliation of a candidate against the provider page
  datatype ReconcilePoint =
    | ReconcileStart(candidate: Status)
    | ReconcileWrite(candidate: Status, to: Status)

  datatype MarkPoint = MarkStart | MarkWrite

  datatype Point =
    | Halt
    | Direct(request: Request)   // any other caller of the transition service
    | Auth(auth: AuthPoint)
    | Check(check: CheckPoint)
    | Book(book: BookPoint)
    | Resume(resume: ResumePoint)
    | WorkerCheck(wcheck: WorkerCheckPoint)
    | WorkerBook(wbook: WorkerBookPoint)
    | WorkerResume(wresume: WorkerResumePoint)
    | Reconcile(reconcile: ReconcilePoint)
    | Mark(mark: MarkPoint)

  // ---- The idempotency guards ---------------------------------------------------

  datatype GuardOutcome = Execute | SkippedAlreadyApplied | SkippedStale

  predicate DownstreamOfBooking(s: Status) {
    s in {Booking, AddingApplicants, AppointmentSelected, PaymentRequired, PaymentProcessing, Confirmed}
  }

  function EvaluateAvailabilityCheck(s: Status): GuardOutcome {
    if s == Monitoring || s == WaitingQueue then Execute
    else if s == SlotFound || DownstreamOfBooking(s) then SkippedAlreadyApplied
    else SkippedStale
  }

  function EvaluateBookingExecution(s: Status): GuardOutcome {
    if s == SlotFound then Execute
    else if DownstreamOfBooking(s) then SkippedAlreadyApplied
    else SkippedStale
  }

  function EvaluateSessionResume(s: Status): GuardOutcome {
    if s == HumanVerification then Execute else SkippedAlreadyApplied
  }

  // A guard lets an operation run exactly where the state machine has an edge for it, and
  // at most one of the three lets its operation run at any status.
  lemma GuardsFollowTheMatrix(s: Status)
    ensures EvaluateAvailabilityCheck(s) == Execute <==> CanTransition(s, SlotFound)
    ensures EvaluateBookingExecution(s) == Execute <==> s != HumanVerification && CanTransition(s, Booking)
    ensures EvaluateSessionResume(s) == Execute ==>
              EvaluateAvailabilityCheck(s) != Execute && EvaluateBookingExecution(s) != Execute
  {
  }

  // ---- Operations ------------------------------------------------------------------

  function Move(from: Status, to: Status): Operation {
    Transition(Request(to, Some(from), NO_META))
  }

  function Checkpoint(from: Status, resumeTo: Status): Operation {
    Transition(Request(HumanVerification, Some(from), Meta(Some(resumeTo), None)))
  }

  function Write(from: Status, to: Status): Operation {
    Conditional(Entry(from, to, Worker, NO_META))
  }

  function WriteCheckpoint(from: Status, resumeTo: Status): Operation {
    Conditional(Entry(from, HumanVerification, Worker, Meta(Some(resumeTo), None)))
  }

  function ModeStatus(waits: bool): Status {
    if waits then WaitingQueue else Monitoring
  }

  function AuthOperation(p: AuthPoint): Operation {
    match p
    case AuthStart(_) => Find
    case AuthBegin(_) => Move(Ready, Authenticating)
    case AuthCall(_) => Ask(Authenticate)
    case AuthHuman(resumeTo) => Checkpoint(Authenticating, resumeTo)
    case AuthFail => Move(Authenticating, Failed)
    case AuthInspect(_) => Ask(InspectRoute)
    case AuthEnter(waits) => Move(Authenticating, ModeStatus(waits))
  }

  function CheckOperation(p: CheckPoint): Operation {
    match p
    case CheckStart => Find
    case CheckFind(_) => Find
    case CheckCall(_) => Ask(CheckAvailability)
    case CheckFound(seen, slot) => Transition(Request(SlotFound, Some(seen), Meta(None, Some(slot))))
  }

  function BookOperation(p: BookPoint): Operation {
    match p
    case BookStart(_) => Find
    case BookFind(_, _) => Find
    case BookSlot => Latest
    case BookEnter(_, _, _) => Move(SlotFound, Booking)
    case BookBegin(_, _) => Ask(BeginBooking)
    case BookLost => Move(Booking, SlotLost)
    case BookAdd => Move(Booking, AddingApplicants)
    case BookApplicants => Ask(AddApplicants)
    case BookSelect => Move(AddingApplicants, AppointmentSelected)
    case BookAppointment => Ask(SelectAppointment)
    case BookPayment => Ask(GetPaymentState)
    case BookHuman(resumeTo) => Checkpoint(AppointmentSelected, resumeTo)
    case BookPay(_) => Move(AppointmentSelected, PaymentRequired)
    case BookProcess => Move(PaymentRequired, PaymentProcessing)
    case BookConfirmation => Ask(GetConfirmation)
    case BookConfirm => Move(PaymentProcessing, Confirmed)
  }

  function ResumeOperation(p: ResumePoint): Operation {
    match p
    case ResumeStart => Find
    case ResumeFind(_) => Find
    case ResumeCall => Ask(ResumeSession)
    case ResumeRead => Latest
    case ResumeGo(target) => Move(HumanVerification, target)
  }

  function WorkerCheckOperation(p: WorkerCheckPoint): Operation {
    match p
    case WCheckStart(_) => Find
    case WAuthBegin(_) => Write(Ready, Authenticating)
    case WAuthCall(_) => Ask(Authenticate)
    case WAuthHuman(resumeTo) => WriteCheckpoint(Authenticating, resumeTo)
    case WAuthFail => Write(Authenticating, Failed)
    case WInspect(_) => Ask(InspectRoute)
    case WEnter(waits) => Write(Authenticating, ModeStatus(waits))
    case WCheckCall => Ask(CheckAvailability)
    case WCheckHuman(resumeTo) => WriteCheckpoint(Monitoring, resumeTo)
    case WFound(found) => Conditional(Entry(Monitoring, SlotFound, Worker, Meta(None, None, Some(found))))
  }

  function WorkerBookOperation(p: WorkerBookPoint): Operation {
    match p
    case WBookStart => Find
    case WBookEnter => Write(SlotFound, Booking)
    case WBookBegin => Ask(BeginBooking)
    case WBookLost => Write(Booking, SlotLost)
    case WBookAdd => Write(Booking, AddingApplicants)
    case WApplicants => Ask(AddApplicants)
    case WApplicantsHuman(resumeTo) => WriteCheckpoint(AddingApplicants, resumeTo)
    case WSelect => Write(AddingApplicants, AppointmentSelected)
    case WAppointment => Ask(SelectAppointment)
    case WAppointmentLost => Write(AppointmentSelected, SlotLost)
    case WPayment => Ask(GetPaymentState)
    case WPaymentHuman(resumeTo) => WriteCheckpoint(AppointmentSelected, resumeTo)
    case WPay => Write(AppointmentSelected, PaymentRequired)
  }

  function WorkerResumeOperation(p: WorkerResumePoint): Operation {
    match p
    case WResumeStart => Find
    case WResumeSession(_) => ReadSession
    case WResumeCall(_) => Ask(ResumeSession)
    case WResumeGo(target) => Write(HumanVerification, target)
    case WPaidCall => Ask(GetPaymentState)
    case WProcess => Write(PaymentRequired, PaymentProcessing)
    case WConfirmation => Ask(GetConfirmation)
    case WConfirm => Write(PaymentProcessing, Confirmed)
  }

  function ReconcileOperation(p: ReconcilePoint): Operation {
    match p
    case ReconcileStart(_) => InspectRemote
    case ReconcileWrite(candidate, to) =>
      // the switch only writes for these candidates
      if to == Confirmed && candidate in {PaymentProcessing, PaymentRequired} then Write(candidate, Confirmed)
      else if to == PaymentRequired && candidate == AppointmentSelected then Write(candidate, PaymentRequired)
      else Stop
  }

  function MarkOperation(p: MarkPoint): Operation {
    match p
    case MarkStart => Validate
    case MarkWrite => MarkReady
  }

  function OperationAt(p: Point): Operation {
    match p
    case Halt => Stop
    case Direct(request) => Transition(request)
    case Auth(q) => AuthOperation(q)
    case Check(q) => CheckOperation(q)
    case Book(q) => BookOperation(q)
    case Resume(q) => ResumeOperation(q)
    case WorkerCheck(q) => WorkerCheckOperation(q)
    case WorkerBook(q) => WorkerBookOperation(q)
    case WorkerResume(q) => WorkerResumeOperation(q)
    case Reconcile(q) => ReconcileOperation(q)
    case Mark(q) => MarkOperation(q)
  }

  // The programs as they are handed to the system, before their first operation.
  predicate IsStart(p: Point) {
    match p
    case Halt => false
    case Direct(_) => true
    case Auth(q) => q.AuthStart?
    case Check(q) => q.CheckStart?
    case Book(q) => q.BookStart?
    case Resume(q) => q.ResumeStart?
    case WorkerCheck(q) => q.WCheckStart?
    case WorkerBook(q) => q.WBookStart?
    case WorkerResume(q) => q.WResumeStart?
    case Reconcile(q) => q.ReconcileStart?
    case Mark(q) => q.MarkStart?
  }

  // Programs that run inside withCaseLock.
  predicate RunsUnderLock(p: Point) {
    p.Auth? || p.Check? || p.Book? || p.Resume?
  }

  // ---- Control flow ------------------------------------------------------------------

  // Where executeResume goes.
  function RecordedTarget(latest: Meta): Status {
    latest.resumeTo.GetOr(Authenticating)
  }

  // Where a program goes when its operation is answered; an error ends it.
  function AfterAuth(p: AuthPoint, reply: Reply): Point {
    match (p, reply)
    case (AuthStart(waits), Saw(_)) => Auth(AuthBegin(waits))
    case (AuthBegin(waits), Moved) => Auth(AuthCall(waits))
    case (AuthCall(waits), Answered(answer)) =>
      (match answer
       case HumanAction(resumeTo) => Auth(AuthHuman(resumeTo))
       case PermanentFailure => Auth(AuthFail)
       case Success(_) => Auth(AuthInspect(waits))
       case _ => Halt)
    case (AuthInspect(waits), Answered(answer)) =>
      (match answer
       case Throws => Halt
       case Success(data) => Auth(AuthEnter(data.waitingQueue))
       case _ => Auth(AuthEnter(waits)))
    case _ => Halt
  }

  function AfterCheck(p: CheckPoint, reply: Reply): Point {
    match (p, reply)
    case (CheckStart, Saw(s)) => Check(CheckFind(EvaluateAvailabilityCheck(s) == Execute))
    case (CheckFind(go), Saw(s)) => if go then Check(CheckCall(s)) else Halt
    case (CheckCall(seen), Answered(Success(data))) =>
      if data.outcome == FoundSlot then Check(CheckFound(seen, data.slot)) else Halt
    case _ => Halt
  }

  function AfterBook(p: BookPoint, reply: Reply): Point {
    match (p, reply)
    case (BookStart(given), Saw(s)) => Book(BookFind(EvaluateBookingExecution(s) == Execute, given))
    case (BookFind(go, given), Saw(_)) =>
      if !go then Halt else if given.Some? then Book(BookEnter(true, given, 0)) else Book(BookSlot)
    case (BookSlot, Recorded(meta, readAt)) => Book(BookEnter(false, meta.slotCandidate, readAt))
    case (BookEnter(given, slot, _), Moved) => Book(BookBegin(given, slot))
    case (BookBegin(_, _), Answered(answer)) =>
      (match answer
       case Throws => Halt
       case Success(data) => if data.outcome == LostSlot then Book(BookLost) else Book(BookAdd)
       case _ => Book(BookAdd))
    case (BookAdd, Moved) => Book(BookApplicants)
    case (BookApplicants, Answered(answer)) => if answer == Throws then Halt else Book(BookSelect)
    case (BookSelect, Moved) => Book(BookAppointment)
    case (BookAppointment, Answered(answer)) => if answer == Throws then Halt else Book(BookPayment)
    case (BookPayment, Answered(answer)) =>
      (match answer
       case Throws => Halt
       case HumanAction(resumeTo) => Book(BookHuman(resumeTo))
       case Success(data) => Book(BookPay(data.paymentUrl))
       case _ => Book(BookPay(false)))
    case (BookPay(stop), Moved) => if stop then Halt else Book(BookProcess)
    case (BookProcess, Moved) => Book(BookConfirmation)
    case (BookConfirmation, Answered(answer)) => if answer == Throws then Halt else Book(BookConfirm)
    case _ => Halt
  }

  function AfterResume(p: ResumePoint, reply: Reply): Point {
    match (p, reply)
    case (ResumeStart, Saw(s)) => Resume(ResumeFind(EvaluateSessionResume(s) == Execute))
    case (ResumeFind(go), Saw(_)) => if go then Resume(ResumeCall) else Halt
    case (ResumeCall, Answered(answer)) => if answer == Throws then Halt else Resume(ResumeRead)
    case (ResumeRead, Recorded(meta, _)) => Resume(ResumeGo(RecordedTarget(meta)))
    case _ => Halt
  }

  function AfterWorkerCheck(p: WorkerCheckPoint, reply: Reply): Point {
    match (p, reply)
    case (WCheckStart(waits), Saw(s)) =>
      (match s
       case Ready => WorkerCheck(WAuthBegin(waits))
       case Authenticating => WorkerCheck(WAuthCall(waits))
       case Monitoring => WorkerCheck(WCheckCall)
       case WaitingQueue => WorkerCheck(WCheckCall)
       case _ => Halt)
    case (WAuthBegin(waits), Wrote(_)) => WorkerCheck(WAuthCall(waits))
    case (WAuthCall(waits), Answered(answer)) =>
      (match answer
       case HumanAction(resumeTo) => WorkerCheck(WAuthHuman(resumeTo))
       case PermanentFailure => WorkerCheck(WAuthFail)
       case Success(_) => WorkerCheck(WInspect(waits))
       case _ => Halt)
    case (WInspect(waits), Answered(answer)) =>
      (match answer
       case HumanAction(resumeTo) => WorkerCheck(WAuthHuman(resumeTo))
       case PermanentFailure => WorkerCheck(WAuthFail)
       case Success(_) => WorkerCheck(WEnter(waits))
       case _ => Halt)
    case (WEnter(_), Wrote(_)) => WorkerCheck(WCheckCall)
    case (WCheckCall, Answered(answer)) =>
      (match answer
       case HumanAction(resumeTo) => WorkerCheck(WCheckHuman(resumeTo))
       case Success(data) => if data.outcome == FoundSlot then WorkerCheck(WFound(data.slot)) else Halt
       case _ => Halt)
    case _ => Halt
  }

  function AfterWorkerBook(p: WorkerBookPoint, reply: Reply): Point {
    match (p, reply)
    case (WBookStart, Saw(s)) => if s == SlotFound then WorkerBook(WBookEnter) else Halt
    case (WBookEnter, Wrote(_)) => WorkerBook(WBookBegin)
    case (WBookBegin, Answered(answer)) =>
      (match answer
       case Throws => Halt
       case Success(data) => if data.outcome == LostSlot then WorkerBook(WBookLost) else WorkerBook(WBookAdd)
       case RetryableFailure(slotLost) => if slotLost then WorkerBook(WBookLost) else WorkerBook(WBookAdd)
       case _ => WorkerBook(WBookAdd))
    case (WBookAdd, Wrote(_)) => WorkerBook(WApplicants)
    case (WApplicants, Answered(answer)) =>
      (match answer
       case Throws => Halt
       case HumanAction(resumeTo) => WorkerBook(WApplicantsHuman(resumeTo))
       case _ => WorkerBook(WSelect))
    case (WSelect, Wrote(_)) => WorkerBook(WAppointment)
    case (WAppointment, Answered(answer)) =>
      (match answer
       case Throws => Halt
       case RetryableFailure(slotLost) => if slotLost then WorkerBook(WAppointmentLost) else WorkerBook(WPayment)
       case _ => WorkerBook(WPayment))
    case (WPayment, Answered(answer)) =>
      (match answer
       case Throws => Halt
       case HumanAction(resumeTo) => WorkerBook(WPaymentHuman(resumeTo))
       case _ => WorkerBook(WPay))
    case _ => Halt
  }

  function AfterWorkerResume(p: WorkerResumePoint, reply: Reply): Point {
    match (p, reply)
    case (WResumeStart, Saw(s)) =>
      if s == HumanVerification then WorkerResume(WResumeSession(true))
      else if s == PaymentRequired then WorkerResume(WResumeSession(false))
      else Halt
    case (WResumeSession(human), SessionRow(session)) =>
      if session.NoSession? || !session.owned then Halt
      else if human then WorkerResume(WResumeCall(session.resumeTo.GetOr(Monitoring)))
      else WorkerResume(WPaidCall)
    case (WResumeCall(target), Answered(answer)) =>
      (match answer
       case Throws => Halt
       case HumanAction(_) => Halt
       case _ => WorkerResume(WResumeGo(target)))
    case (WPaidCall, Answered(Success(data))) => if data.paid then WorkerResume(WProcess) else Halt
    case (WProcess, Wrote(_)) => WorkerResume(WConfirmation)
    case (WConfirmation, Answered(Success(_))) => WorkerResume(WConfirm)
    case _ => Halt
  }

  function AfterReconcile(p: ReconcilePoint, reply: Reply): Point {
    match (p, reply)
    case (ReconcileStart(candidate), Remote(remote)) =>
      (match remote
       case RemoteConfirmed => Reconcile(ReconcileWrite(candidate, Confirmed))
       case RemotePaymentRequired => Reconcile(ReconcileWrite(candidate, PaymentRequired))
       case RemoteOther => Halt)
    case _ => Halt
  }

  function AfterMark(p: MarkPoint, reply: Reply): Point {
    match (p, reply)
    case (MarkStart, Validated(s, rulesHold)) => if s == Draft && rulesHold then Mark(MarkWrite) else Halt
    case _ => Halt
  }

  function After(p: Point, reply: Reply): Point {
    match p
    case Halt => Halt
    case Direct(_) => Halt
    case Auth(q) => AfterAuth(q, reply)
    case Check(q) => AfterCheck(q, reply)
    case Book(q) => AfterBook(q, reply)
    case Resume(q) => AfterResume(q, reply)
    case WorkerCheck(q) => AfterWorkerCheck(q, reply)
    case WorkerBook(q) => AfterWorkerBook(q, reply)
    case WorkerResume(q) => AfterWorkerResume(q, reply)
    case Reconcile(q) => AfterReconcile(q, reply)
    case Mark(q) => AfterMark(q, reply)
  }

  // The engine's calls read the status twice. The first reading decides whether the call goes on; the
  // second one is what an availability check expects the case to be at when it records a slot.
  lemma TwoReadings(first: Status, second: Status, slot: Option<string>)
    ensures var p := After(After(Check(CheckStart), Saw(first)), Saw(second));
            p == if first == Monitoring || first == WaitingQueue then Check(CheckCall(second)) else Halt
    ensures var p := After(After(Book(BookStart(slot)), Saw(first)), Saw(second));
            p == if first != SlotFound then Halt else if slot.Some? then Book(BookEnter(true, slot, 0)) else Book(BookSlot)
    ensures var p := After(After(Resume(ResumeStart), Saw(first)), Saw(second));
            p == if first == HumanVerification then Resume(ResumeCall) else Halt
    ensures forall data: Data :: data.outcome == FoundSlot ==>
              OperationAt(After(Check(CheckCall(second)), Answered(Success(data))))
              == Transition(Request(SlotFound, Some(second), Meta(None, Some(data.slot), None)))
  {
  }
}
