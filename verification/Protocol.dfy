// Any number of programs interleaved on one case. A run is a sequence of events: a
// program is launched, or one program performs its next operation. The transition service
// is itself three operations: load and check, read the history, compare-and-set.
module Protocol {
  import opened Wrappers
  import opened CaseStatus
  import opened CaseRecord
  import opened CaseHistory
  import opened Programs

  datatype Proc =
    | At(point: Point)
    // inside transition(): the loaded status passed its checks, the history comes next
    | Checking(point: Point, request: Request, current: Status)
    // inside transition(): about to compare-and-set; readAt is how long the history was
    // when the checks were made
    | Committing(point: Point, request: Request, current: Status, readAt: nat)
    | Refused(point: Point, error: ServiceError)

  datatype Input = Input(answer: Answer, session: Session, remote: RemoteState, rulesHold: bool)

  datatype Event = Launch(point: Point) | Run(pid: nat, input: Input)

  // What a run has done so far beyond its effect on the case.
  datatype Tally = Tally(
    begun: nat,    // beginBooking calls made by the engine
    wbegun: nat,   // beginBooking calls made by the booking worker
    bare: nat,     // SLOT_FOUND -> BOOKING writes by other callers of the transition service
    refused: nat,  // SLOT_FOUND -> BOOKING writes of the booking worker that found another status
    racy: nat,     // writes of READY that found another status than DRAFT
    stale: nat,    // resumes written by the service after the history grew since its check
    misled: nat,   // those of them that left another checkpoint than recorded the target
    astray: nat,   // resumes written by a worker to another target than the recorded one
    misbooked: nat, // bookings entered by the engine with another slot than the one found
    leaps: nat     // resumes and reconciled confirmations that passed over a level
  )

  datatype World = World(c: Case, procs: seq<Proc>, tally: Tally)

  const NO_TALLY := Tally(0, 0, 0, 0, 0, 0, 0, 0, 0, 0)
  const INITIAL := World(NEW_CASE, [], NO_TALLY)

  // ---- One operation ---------------------------------------------------------------

  // The first operation of the transition service.
  function Load(c: Case, p: Point, r: Request): Proc {
    match LoadCheck(r, c.status)
    case Some(error) => Refused(p, error)
    case None =>
      if NeedsResumeCheck(r, c.status) then Checking(p, r, c.status)
      else Committing(p, r, c.status, |c.history|)
  }

  function ReplyTo(c: Case, op: Operation, input: Input): Reply {
    match op
    case Find => Saw(c.status)
    case Latest => Recorded(LatestMeta(c.history), |c.history|)
    case Ask(_) => Answered(input.answer)
    case ReadSession => SessionRow(input.session)
    case InspectRemote => Remote(input.remote)
    case Validate => Validated(c.status, input.rulesHold)
    case Conditional(e) => Wrote(CompareAndSet(c, e).1)
    case _ => Moved
  }

  function Written(c: Case, op: Operation): Case {
    match op
    case Conditional(e) => CompareAndSet(c, e).0
    case MarkReady => WriteReady(c)
    case _ => c
  }

  function Operate(c: Case, p: Point, input: Input): (Case, Proc) {
    var op := OperationAt(p);
    match op
    case Stop => (c, At(p))
    case Transition(r) => (c, Load(c, p, r))
    case _ => (Written(c, op), At(After(p, ReplyTo(c, op, input))))
  }

  // The second operation of the transition service, where it is needed.
  function CheckHistory(c: Case, p: Point, r: Request, current: Status): Proc {
    match ResumeCheck(r, LatestMeta(c.history))
    case Some(error) => Refused(p, error)
    case None => Committing(p, r, current, |c.history|)
  }

  // Its last operation.
  function Commit(c: Case, r: Request, current: Status): (Case, Option<ServiceError>) {
    if c.status == current then (CompareAndSet(c, RequestEntry(r, current)).0, None)
    else (c, Some(StaleState(current, c.status)))
  }

  function Advance(c: Case, proc: Proc, input: Input): (Case, Proc) {
    match proc
    case At(p) => Operate(c, p, input)
    case Checking(p, r, current) => (c, CheckHistory(c, p, r, current))
    case Committing(p, r, current, _) =>
      var (c', error) := Commit(c, r, current);
      (c', if error.Some? then Refused(p, error.value) else At(After(p, Moved)))
    case Refused(_, _) => (c, proc)
  }

  // The entry an operation appends, if it appends one.
  function Landing(c: Case, proc: Proc): Option<Entry> {
    match proc
    case At(p) =>
      (match OperationAt(p)
       case Conditional(e) => if c.status == e.from then Some(e) else None
       case MarkReady => Some(READY_ENTRY)
       case _ => None)
    case Committing(_, r, current, _) => if c.status == current then Some(RequestEntry(r, current)) else None
    case _ => None
  }

  // ---- What is counted -----------------------------------------------------------------

  predicate Begins(proc: Proc) {
    proc.At? && proc.point.Book? && proc.point.book.BookBegin?
  }

  predicate WorkerBegins(proc: Proc) {
    proc == At(WorkerBook(WBookBegin))
  }

  predicate Bare(c: Case, proc: Proc) {
    && proc.Committing? && proc.point.Direct?
    && c.status == proc.current == SlotFound && proc.point.request.to == Booking
  }

  predicate RefusedStart(c: Case, proc: Proc) {
    proc == At(WorkerBook(WBookEnter)) && c.status != SlotFound
  }

  predicate Racy(c: Case, proc: Proc) {
    proc == At(Mark(MarkWrite)) && c.status != Draft
  }

  // The latest entry recorded a target, and this is another one.
  predicate OffTarget(h: seq<Entry>, to: Status) {
    to != Failed && to != Cancelled && LatestMeta(h).resumeTo.Some? && LatestMeta(h).resumeTo.value != to
  }

  predicate Stale(c: Case, proc: Proc) {
    && proc.Committing? && proc.current == c.status && NeedsResumeCheck(proc.request, proc.current)
    && proc.readAt < |c.history|
  }

  predicate Misled(c: Case, proc: Proc) {
    Stale(c, proc) && OffTarget(c.history, proc.request.to)
  }

  predicate Astray(c: Case, proc: Proc) {
    && proc.At? && proc.point.WorkerResume? && proc.point.wresume.WResumeGo?
    && c.status == HumanVerification && OffTarget(c.history, proc.point.wresume.target)
  }

  // executeBooking enters BOOKING with a slot that it has read.
  predicate EntersBooking(c: Case, proc: Proc) {
    && proc.Committing? && proc.current == c.status
    && proc.point.Book? && proc.point.book.BookEnter? && !proc.point.book.given
  }

  // And the case holds another one, or it has none.
  predicate Misbooks(c: Case, proc: Proc) {
    && EntersBooking(c, proc)
    && (proc.point.book.slot.None? || proc.point.book.slot != FoundIn(LatestMeta(c.history)))
  }

  predicate Leaps(c: Case, proc: Proc) {
    match Landing(c, proc)
    case None => false
    case Some(e) =>
      (e.from == HumanVerification || (e.from == PaymentRequired && e.to == Confirmed)) && Skips(c.history, e.to)
  }

  function Bit(b: bool): nat {
    if b then 1 else 0
  }

  function Count(t: Tally, c: Case, proc: Proc): Tally {
    Tally(t.begun + Bit(Begins(proc)), t.wbegun + Bit(WorkerBegins(proc)), t.bare + Bit(Bare(c, proc)),
          t.refused + Bit(RefusedStart(c, proc)), t.racy + Bit(Racy(c, proc)),
          t.stale + Bit(Stale(c, proc)), t.misled + Bit(Misled(c, proc)), t.astray + Bit(Astray(c, proc)),
          t.misbooked + Bit(Misbooks(c, proc)), t.leaps + Bit(Leaps(c, proc)))
  }

  function Next(s: World, event: Event): World {
    match event
    case Launch(p) => if IsStart(p) then s.(procs := s.procs + [At(p)]) else s
    case Run(pid, input) =>
      if pid >= |s.procs| then s
      else
        var (c, proc) := Advance(s.c, s.procs[pid], input);
        World(c, s.procs[pid := proc], Count(s.tally, s.c, s.procs[pid]))
  }

  // A program is launched at its beginning and nowhere else; a request to the transition service may
  // be made by anyone.
  lemma LaunchesAtTheBeginning(s: World, p: Point, r: Request, waits: bool, slot: Option<string>, candidate: Status)
    ensures p in {Direct(r), Auth(AuthStart(waits)), Check(CheckStart), Book(BookStart(slot)), Resume(ResumeStart),
                  WorkerCheck(WCheckStart(waits)), WorkerBook(WBookStart), WorkerResume(WResumeStart),
                  Reconcile(ReconcileStart(candidate)), Mark(MarkStart)}
            ==> Next(s, Launch(p)) == s.(procs := s.procs + [At(p)])
    ensures Next(s, Launch(p)) == s || Next(s, Launch(p)) == s.(procs := s.procs + [At(p)])
    ensures p in {Halt, Check(CheckFind(waits)), Book(BookSlot), Resume(ResumeRead), WorkerBook(WBookBegin), Mark(MarkWrite)}
            ==> Next(s, Launch(p)) == s
  {
  }

  function RunFrom(s: World, events: seq<Event>): World {
    if events == [] then s else Next(RunFrom(s, events[..|events| - 1]), events[|events| - 1])
  }

  lemma {:induction false} RunFromAppend(s: World, first: seq<Event>, second: seq<Event>)
    ensures RunFrom(s, first + second) == RunFrom(RunFrom(s, first), second)
  {
    if second == [] {
      assert first + second == first;
    } else {
      var n := |second| - 1;
      assert (first + second)[..|first + second| - 1] == first + second[..n];
      RunFromAppend(s, first, second[..n]);
    }
  }

  // Without interference the three operations of the transition service amount to Transact.
  lemma UninterruptedTransition(c: Case, p: Point, r: Request)
    ensures match Load(c, p, r)
            case Refused(_, error) => Transact(c, r) == (c, Some(error))
            case Committing(_, _, current, _) => Transact(c, r) == Commit(c, r, current)
            case Checking(_, _, current) =>
              (match CheckHistory(c, p, r, current)
               case Refused(_, error) => Transact(c, r) == (c, Some(error))
               case _ => Transact(c, r) == Commit(c, r, current))
            case At(_) => false
  {
    var e := RequestEntry(r, c.status);
    assert CompareAndSet(c, e) == (Case(e.to, c.history + [e]), true);
  }

  // ---- What a step can write ------------------------------------------------------------

  // The worker and reconciliation writes go beyond the table in three ways.
  predicate WorkerEdge(from: Status, to: Status) {
    || from == HumanVerification
    || CanTransition(from, to)
    || (from == AppointmentSelected && to == SlotLost)
    || (from == PaymentRequired && to == Confirmed)
  }

  predicate EntryOk(e: Entry) {
    match e.actor
    case User => e == READY_ENTRY
    case System => CanTransition(e.from, e.to)
    case Worker => !IsTerminal(e.from) && e.from != WaitingQueue && WorkerEdge(e.from, e.to)
  }

  predicate ProcOk(proc: Proc) {
    match proc
    case Checking(p, r, current) => OperationAt(p) == Transition(r) && LoadCheck(r, current).None? && NeedsResumeCheck(r, current)
    case Committing(p, r, current, _) => OperationAt(p) == Transition(r) && LoadCheck(r, current).None?
    case _ => true
  }

  lemma WorkerWritesAreKnown(p: Point)
    ensures OperationAt(p).Conditional? ==>
              OperationAt(p).entry.actor == Worker && EntryOk(OperationAt(p).entry)
    ensures OperationAt(p).MarkReady? <==> p == Mark(MarkWrite)
  {
  }

  lemma AdvanceLands(c: Case, proc: Proc, input: Input)
    ensures Advance(c, proc, input).0
         == match Landing(c, proc) case None => c case Some(e) => Case(e.to, c.history + [e])
  {
    if proc.At? && OperationAt(proc.point).MarkReady? {
      assert Operate(c, proc.point, input).0 == WriteReady(c);
    }
  }

  // A step leaves the case alone or appends one permitted entry, which starts from the stored
  // status unless it is the write of READY.
  lemma StepWrites(c: Case, proc: Proc, input: Input)
    requires ProcOk(proc)
    ensures ProcOk(Advance(c, proc, input).1)
    ensures Advance(c, proc, input).0
         == match Landing(c, proc) case None => c case Some(e) => Case(e.to, c.history + [e])
    ensures match Landing(c, proc)
            case None => proc != At(Mark(MarkWrite))
            case Some(e) =>
              EntryOk(e) && if proc == At(Mark(MarkWrite)) then e == READY_ENTRY else e.actor != User && e.from == c.status
  {
    AdvanceLands(c, proc, input);
    if proc.At? {
      WorkerWritesAreKnown(proc.point);
    }
  }
}
