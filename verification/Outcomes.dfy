// What each call of the engine and each job of the workers comes to, by the answers it gets: which
// statuses it writes, one after another, with which metadata, and what it reports. EngineCalls and
// WorkerJobs prove that the sequential code and the programs of the protocol do just this.
module Outcomes {
  import opened Wrappers
  import opened CaseStatus
  import opened CaseRecord
  import opened CaseHistory
  import opened Programs
  import opened SoloRuns
  import EngineCalls
  import WorkerJobs

  // Entries of one writer that lead from a status through these ones, and carry no metadata except
  // into HUMAN_VERIFICATION_REQUIRED and SLOT_FOUND.
  ghost predicate Walks(from: Status, es: seq<Entry>, who: Actor, through: seq<Status>) {
    && |es| == |through|
    && (es != [] ==> es[0].from == from)
    && (forall i, j :: 0 <= i && j == i + 1 && j < |es| ==> es[j].from == through[i])
    && (forall i :: 0 <= i < |es| ==>
          && es[i].to == through[i] && es[i].actor == who
          && (through[i] != HumanVerification && through[i] != SlotFound ==> es[i].meta == Meta(None, None, None)))
  }

  // The last entry records where to resume.
  ghost predicate RecordsTarget(es: seq<Entry>, target: Status) {
    es != [] && es[|es| - 1].to == HumanVerification && es[|es| - 1].meta == Meta(Some(target), None, None)
  }

  // ---- The engine ----------------------------------------------------------------------------

  // executeAuthentication, from READY: the mode the case enters is what the inspection says, or the
  // mode configured for the route when the inspection fails without throwing.
  lemma AuthenticationComesTo(script: Script, waits: bool)
    ensures var a, i := script.answer(Authenticate), script.answer(InspectRoute);
            var route := EngineCalls.AuthenticationRoute(script, waits);
            var mode := if (if i.Success? then i.data.waitingQueue else waits) then WaitingQueue else Monitoring;
            && Walks(Ready, route.entries, System,
                     if a.HumanAction? then [Authenticating, HumanVerification]
                     else if a.PermanentFailure? then [Authenticating, Failed]
                     else if a.Success? && !i.Throws? then [Authenticating, mode]
                     else [Authenticating])
            && (a.HumanAction? ==> RecordsTarget(route.entries, a.resumeTo))
            && route.report == (if a.Throws? || (a.Success? && i.Throws?) then EngineCalls.AdapterThrew
                                else if a.HumanAction? then EngineCalls.HumanActionRequired
                                else if a.PermanentFailure? then EngineCalls.FailedForGood
                                else if a.RetryableFailure? then EngineCalls.RetryLater
                                else EngineCalls.Completed)
  {
  }

  // executeAvailabilityCheck, from MONITORING or WAITING_QUEUE.
  lemma CheckComesTo(script: Script, from: Status)
    ensures var a := script.answer(CheckAvailability);
            var found := a.Success? && a.data.outcome == FoundSlot;
            && EngineCalls.CheckRoute(script, from)
            == (if found then [Entry(from, SlotFound, System, Meta(None, Some(a.data.slot), None))] else [])
            && EngineCalls.CheckReport(script)
            == (if a.Throws? then EngineCalls.AdapterThrew
                else if found then EngineCalls.SlotIs(a.data.slot)
                else if a.Success? && a.data.outcome == CapacityMismatch then EngineCalls.GroupCapacityMismatch
                else EngineCalls.PendingNoSlot)
  {
  }

  lemma WalksOn(e: Entry, es: seq<Entry>, who: Actor, through: seq<Status>)
    requires Walks(e.to, es, who, through) && e.actor == who
    requires e.to != HumanVerification && e.to != SlotFound && e.meta == Meta(None, None, None)
    ensures Walks(e.from, [e] + es, who, [e.to] + through)
  {
    var all, path := [e] + es, [e.to] + through;
    forall i, j | 0 <= i && j == i + 1 && j < |all|
      ensures all[j].from == path[i]
    {
      if i > 0 {
        assert all[j] == es[i] && path[i] == through[i - 1];
      }
    }
  }

  lemma TargetOn(e: Entry, es: seq<Entry>, target: Status)
    requires RecordsTarget(es, target)
    ensures RecordsTarget([e] + es, target)
  {
  }

  lemma ConfirmationWalks(script: Script)
    ensures Walks(PaymentRequired, EngineCalls.ConfirmationRoute(script).entries, System,
                  [PaymentProcessing] + if script.answer(GetConfirmation).Throws? then [] else [Confirmed])
  {
    WalksOn(EngineCalls.E(PaymentRequired, PaymentProcessing), EngineCalls.ConfirmedUnlessThrown(script).entries, System,
            if script.answer(GetConfirmation).Throws? then [] else [Confirmed]);
  }

  // From the selected appointment on.
  lemma PaymentWalks(script: Script)
    ensures var pay, route := script.answer(GetPaymentState), EngineCalls.PaymentRoute(script);
            && Walks(AppointmentSelected, route.entries, System,
                     if pay.Throws? then []
                     else if pay.HumanAction? then [HumanVerification]
                     else if pay.Success? && pay.data.paymentUrl then [PaymentRequired]
                     else [PaymentRequired] + ([PaymentProcessing] + if script.answer(GetConfirmation).Throws? then [] else [Confirmed]))
            && (pay.HumanAction? ==> RecordsTarget(route.entries, pay.resumeTo))
  {
    var pay, e := script.answer(GetPaymentState), EngineCalls.E(AppointmentSelected, PaymentRequired);
    if !pay.Throws? && !pay.HumanAction? {
      if pay.Success? && pay.data.paymentUrl {
        WalksOn(e, [], System, []);
      } else {
        ConfirmationWalks(script);
        WalksOn(e, EngineCalls.ConfirmationRoute(script).entries, System,
                [PaymentProcessing] + if script.answer(GetConfirmation).Throws? then [] else [Confirmed]);
      }
    }
  }

  // The calls before the payment.
  lemma BookingStopsEarly(script: Script)
    ensures var begin, route := script.answer(BeginBooking), EngineCalls.BookingRoute(script);
            var add, select := script.answer(AddApplicants), script.answer(SelectAppointment);
            && (begin.Throws? ==> Walks(SlotFound, route.entries, System, [Booking]))
            && (begin.Success? && begin.data.outcome == LostSlot ==> Walks(SlotFound, route.entries, System, [Booking, SlotLost]))
            && (!begin.Throws? && !(begin.Success? && begin.data.outcome == LostSlot) ==>
                  && (add.Throws? ==> Walks(SlotFound, route.entries, System, [Booking, AddingApplicants]))
                  && (!add.Throws? && select.Throws? ==>
                        Walks(SlotFound, route.entries, System, [Booking, AddingApplicants, AppointmentSelected] + [])))
  {
  }

  function BeforePayment(paid: seq<Entry>): seq<Entry> {
    [EngineCalls.E(SlotFound, Booking)]
    + ([EngineCalls.E(Booking, AddingApplicants)] + ([EngineCalls.E(AddingApplicants, AppointmentSelected)] + paid))
  }

  lemma WalksToPayment(paid: seq<Entry>, through: seq<Status>)
    requires Walks(AppointmentSelected, paid, System, through)
    ensures Walks(SlotFound, BeforePayment(paid), System, [Booking, AddingApplicants, AppointmentSelected] + through)
  {
    var select, add := EngineCalls.E(AddingApplicants, AppointmentSelected), EngineCalls.E(Booking, AddingApplicants);
    WalksOn(select, paid, System, through);
    WalksOn(add, [select] + paid, System, [AppointmentSelected] + through);
    WalksOn(EngineCalls.E(SlotFound, Booking), [add] + ([select] + paid), System, [AddingApplicants] + ([AppointmentSelected] + through));
    assert [Booking] + ([AddingApplicants] + ([AppointmentSelected] + through)) == [Booking, AddingApplicants, AppointmentSelected] + through;
  }

  lemma PaymentIsReached(script: Script, through: seq<Status>)
    requires !script.answer(BeginBooking).Throws?
    requires !(script.answer(BeginBooking).Success? && script.answer(BeginBooking).data.outcome == LostSlot)
    requires !script.answer(AddApplicants).Throws? && !script.answer(SelectAppointment).Throws?
    requires Walks(AppointmentSelected, EngineCalls.PaymentRoute(script).entries, System, through)
    ensures var route := EngineCalls.BookingRoute(script);
            && Walks(SlotFound, route.entries, System, [Booking, AddingApplicants, AppointmentSelected] + through)
            && route.report == EngineCalls.PaymentRoute(script).report
            && forall target :: RecordsTarget(EngineCalls.PaymentRoute(script).entries, target) ==> RecordsTarget(route.entries, target)
  {
    var paid := EngineCalls.PaymentRoute(script).entries;
    WalksToPayment(paid, through);
    forall target | RecordsTarget(paid, target)
      ensures RecordsTarget(BeforePayment(paid), target)
    {
      TargetOn(EngineCalls.E(AddingApplicants, AppointmentSelected), paid, target);
    }
  }

  // Where executeBooking stops, from SLOT_FOUND: at the first of its five calls that throws, at a
  // lost slot, at a challenge at the payment, at a payment page, or at a confirmation.
  lemma BookingComesTo(script: Script)
    ensures var begin, pay := script.answer(BeginBooking), script.answer(GetPaymentState);
            var route := EngineCalls.BookingRoute(script);
            && Walks(SlotFound, route.entries, System,
                     if begin.Throws? then [Booking]
                     else if begin.Success? && begin.data.outcome == LostSlot then [Booking, SlotLost]
                     else if script.answer(AddApplicants).Throws? then [Booking, AddingApplicants]
                     else [Booking, AddingApplicants, AppointmentSelected]
                          + if script.answer(SelectAppointment).Throws? || pay.Throws? then []
                            else if pay.HumanAction? then [HumanVerification]
                            else if pay.Success? && pay.data.paymentUrl then [PaymentRequired]
                            else [PaymentRequired]
                                 + ([PaymentProcessing] + if script.answer(GetConfirmation).Throws? then [] else [Confirmed]))
            && (route.report == EngineCalls.HumanActionRequired ==> pay.HumanAction? && RecordsTarget(route.entries, pay.resumeTo))
  {
    var begin, pay := script.answer(BeginBooking), script.answer(GetPaymentState);
    BookingStopsEarly(script);
    if begin.Throws? || (begin.Success? && begin.data.outcome == LostSlot)
       || script.answer(AddApplicants).Throws? || script.answer(SelectAppointment).Throws? {
    } else {
      var through := if pay.Throws? then []
                     else if pay.HumanAction? then [HumanVerification]
                     else if pay.Success? && pay.data.paymentUrl then [PaymentRequired]
                     else [PaymentRequired] + ([PaymentProcessing] + if script.answer(GetConfirmation).Throws? then [] else [Confirmed]);
      PaymentWalks(script);
      PaymentIsReached(script, through);
    }
  }

  // executeResume, at a checkpoint: to the recorded target, AUTHENTICATING without one, and only to
  // a status that can be challenged or to FAILED or CANCELLED.
  lemma ResumeComesTo(c: Case)
    requires c.status == HumanVerification
    ensures var last := if c.history == [] then None else c.history[|c.history| - 1].meta.resumeTo;
            var target := if last.Some? then last.value else Authenticating;
            EngineCalls.ResumeRoute(c) ==
            if CanTransition(target, HumanVerification) || target == Failed || target == Cancelled
            then [Entry(HumanVerification, target, System, Meta(None, None, None))] else []
  {
    ResumeTargetsAreTheCheckpointExits(RecordedTarget(LatestMeta(c.history)));
  }

  // ---- The workers ----------------------------------------------------------------------------

  // The booking job from the selected appointment on.
  lemma SelectionWalks(script: Script)
    ensures var select, pay := script.answer(SelectAppointment), script.answer(GetPaymentState);
            var plan := WorkerJobs.SelectionPlan(script);
            && Walks(AppointmentSelected, plan.tries, Actor.Worker,
                     if select.Throws? then []
                     else if select == RetryableFailure(true) then [SlotLost]
                     else if pay.Throws? then []
                     else if pay.HumanAction? then [HumanVerification]
                     else [PaymentRequired])
            && (!select.Throws? && select != RetryableFailure(true) && pay.HumanAction? ==> RecordsTarget(plan.tries, pay.resumeTo))
            && plan.report == (if select.Throws? then WorkerJobs.JobThrew
                               else if select == RetryableFailure(true) then WorkerJobs.SlotWasLost
                               else if pay.Throws? then WorkerJobs.JobThrew
                               else if pay.HumanAction? then WorkerJobs.HumanActionRequired
                               else WorkerJobs.AwaitingPayment)
  {
  }

  lemma ReservationLost(script: Script)
    ensures var begin := script.answer(BeginBooking);
            var lost := begin == RetryableFailure(true) || (begin.Success? && begin.data.outcome == LostSlot);
            var plan := WorkerJobs.BookingPlan(SlotFound, script);
            && (begin.Throws? ==> Walks(SlotFound, plan.tries, Actor.Worker, [Booking]) && plan.report == WorkerJobs.JobThrew)
            && (lost ==> Walks(SlotFound, plan.tries, Actor.Worker, [Booking, SlotLost]) && plan.report == WorkerJobs.SlotWasLost)
  {
  }

  lemma ReservationKept(script: Script)
    requires var begin := script.answer(BeginBooking);
             !begin.Throws? && begin != RetryableFailure(true) && !(begin.Success? && begin.data.outcome == LostSlot)
    ensures var add, plan := script.answer(AddApplicants), WorkerJobs.BookingPlan(SlotFound, script);
            && (add.Throws? ==> Walks(SlotFound, plan.tries, Actor.Worker, [Booking, AddingApplicants]) && plan.report == WorkerJobs.JobThrew)
            && (add.HumanAction? ==>
                  && Walks(SlotFound, plan.tries, Actor.Worker, [Booking, AddingApplicants, HumanVerification])
                  && RecordsTarget(plan.tries, add.resumeTo) && plan.report == WorkerJobs.HumanActionRequired)
            && (!add.Throws? && !add.HumanAction? ==>
                  plan == WorkerJobs.Plan(TriesBeforeSelection(WorkerJobs.SelectionPlan(script).tries), WorkerJobs.SelectionPlan(script).report))
  {
  }

  function TriesBeforeSelection(selected: seq<Entry>): seq<Entry> {
    [WorkerJobs.W(SlotFound, Booking)]
    + ([WorkerJobs.W(Booking, AddingApplicants)] + ([WorkerJobs.W(AddingApplicants, AppointmentSelected)] + selected))
  }

  lemma WalksToSelection(selected: seq<Entry>, through: seq<Status>)
    requires Walks(AppointmentSelected, selected, Actor.Worker, through)
    ensures Walks(SlotFound, TriesBeforeSelection(selected), Actor.Worker, [Booking, AddingApplicants, AppointmentSelected] + through)
    ensures forall target :: RecordsTarget(selected, target) ==> RecordsTarget(TriesBeforeSelection(selected), target)
  {
    var select, add := WorkerJobs.W(AddingApplicants, AppointmentSelected), WorkerJobs.W(Booking, AddingApplicants);
    WalksOn(select, selected, Actor.Worker, through);
    WalksOn(add, [select] + selected, Actor.Worker, [AppointmentSelected] + through);
    WalksOn(WorkerJobs.W(SlotFound, Booking), [add] + ([select] + selected), Actor.Worker, [AddingApplicants] + ([AppointmentSelected] + through));
    assert [Booking] + ([AddingApplicants] + ([AppointmentSelected] + through)) == [Booking, AddingApplicants, AppointmentSelected] + through;
    forall target | RecordsTarget(selected, target)
      ensures RecordsTarget(TriesBeforeSelection(selected), target)
    {
      TargetOn(select, selected, target);
    }
  }

  // The booking job tries nothing unless the case is at SLOT_FOUND. From there, and if its writes land,
  // it stops at the first of its four calls that throws, at a slot lost when it begins the booking or
  // selects the appointment, at a challenge when it adds the applicants or asks for the payment, or
  // with the payment left to the user.
  lemma BookingJobComesTo(s: Status, script: Script)
    ensures var begin, add := script.answer(BeginBooking), script.answer(AddApplicants);
            var select, pay := script.answer(SelectAppointment), script.answer(GetPaymentState);
            var lost := begin == RetryableFailure(true) || (begin.Success? && begin.data.outcome == LostSlot);
            var plan := WorkerJobs.BookingPlan(s, script);
            && (s != SlotFound ==> plan == WorkerJobs.Plan([], WorkerJobs.Skipped))
            && (s == SlotFound ==>
                  && Walks(SlotFound, plan.tries, Actor.Worker,
                           if begin.Throws? then [Booking]
                           else if lost then [Booking, SlotLost]
                           else if add.Throws? then [Booking, AddingApplicants]
                           else if add.HumanAction? then [Booking, AddingApplicants, HumanVerification]
                           else [Booking, AddingApplicants, AppointmentSelected]
                                + if select.Throws? then []
                                  else if select == RetryableFailure(true) then [SlotLost]
                                  else if pay.Throws? then []
                                  else if pay.HumanAction? then [HumanVerification]
                                  else [PaymentRequired])
                  && plan.report == (if begin.Throws? then WorkerJobs.JobThrew
                                     else if lost then WorkerJobs.SlotWasLost
                                     else if add.Throws? then WorkerJobs.JobThrew
                                     else if add.HumanAction? then WorkerJobs.HumanActionRequired
                                     else if select.Throws? then WorkerJobs.JobThrew
                                     else if select == RetryableFailure(true) then WorkerJobs.SlotWasLost
                                     else if pay.Throws? then WorkerJobs.JobThrew
                                     else if pay.HumanAction? then WorkerJobs.HumanActionRequired
                                     else WorkerJobs.AwaitingPayment)
                  && (plan.report == WorkerJobs.HumanActionRequired && add.HumanAction? ==> RecordsTarget(plan.tries, add.resumeTo))
                  && (plan.report == WorkerJobs.HumanActionRequired && !add.HumanAction? ==>
                        pay.HumanAction? && RecordsTarget(plan.tries, pay.resumeTo)))
  {
    if s == SlotFound {
      ReservationLost(script);
      var begin := script.answer(BeginBooking);
      if !begin.Throws? && begin != RetryableFailure(true) && !(begin.Success? && begin.data.outcome == LostSlot) {
        ReservationKept(script);
        if !script.answer(AddApplicants).Throws? && !script.answer(AddApplicants).HumanAction? {
          SelectionWalks(script);
          WalksToSelection(WorkerJobs.SelectionPlan(script).tries, SelectedPath(script));
        }
      }
    }
  }

  function SelectedPath(script: Script): seq<Status> {
    var select, pay := script.answer(SelectAppointment), script.answer(GetPaymentState);
    if select.Throws? then []
    else if select == RetryableFailure(true) then [SlotLost]
    else if pay.Throws? then []
    else if pay.HumanAction? then [HumanVerification]
    else [PaymentRequired]
  }

  // Looking for a slot: the two writes start from MONITORING, and the slot is recorded as slot.
  lemma LookingComesTo(script: Script)
    ensures var a, plan := script.answer(CheckAvailability), WorkerJobs.CheckPlan(script);
            && plan.tries == (if a.HumanAction? then [Entry(Monitoring, HumanVerification, Actor.Worker, Meta(Some(a.resumeTo), None, None))]
                              else if a.Success? && a.data.outcome == FoundSlot
                              then [Entry(Monitoring, SlotFound, Actor.Worker, Meta(None, None, Some(a.data.slot)))]
                              else [])
            && plan.report == (if a.Throws? then WorkerJobs.JobThrew
                               else if a.HumanAction? then WorkerJobs.HumanActionRequired
                               else if a.Success? && a.data.outcome == FoundSlot then WorkerJobs.SlotWasFound
                               else if a.Success? && a.data.outcome == CapacityMismatch then WorkerJobs.GroupCapacityMismatch
                               else if a.Success? && a.data.outcome == NoSlot then WorkerJobs.NoSlotYet
                               else WorkerJobs.AvailabilityError)
  {
  }

  // The availability job signs a case in that is READY or already AUTHENTICATING; both of its calls
  // have to succeed, and the mode is the one configured for the route. Then, and at once for a case
  // that is monitored or waits, it looks for a slot.
  lemma AvailabilityJobComesTo(s: Status, script: Script, waits: bool)
    ensures var a, i := script.answer(Authenticate), script.answer(InspectRoute);
            var plan, looking := WorkerJobs.AvailabilityPlan(s, script, waits), WorkerJobs.CheckPlan(script);
            var begun := if s == Ready then [Entry(Ready, Authenticating, Actor.Worker, Meta(None, None, None))] else [];
            var stop := if a.Success? then i else a;
            && (s !in {Ready, Authenticating, Monitoring, WaitingQueue} ==> plan == WorkerJobs.Plan([], WorkerJobs.Skipped))
            && (s == Monitoring || s == WaitingQueue ==> plan == looking)
            && (s == Ready || s == Authenticating ==>
                  && plan.tries == begun +
                     (if stop.HumanAction?
                      then [Entry(Authenticating, HumanVerification, Actor.Worker, Meta(Some(stop.resumeTo), None, None))]
                      else if stop.PermanentFailure? then [Entry(Authenticating, Failed, Actor.Worker, Meta(None, None, None))]
                      else if stop.Success?
                      then [Entry(Authenticating, if waits then WaitingQueue else Monitoring, Actor.Worker, Meta(None, None, None))]
                           + looking.tries
                      else [])
                  && plan.report == (if stop.HumanAction? then WorkerJobs.HumanActionRequired
                                     else if stop.PermanentFailure? then WorkerJobs.FailedForGood
                                     else if stop.Success? then looking.report
                                     else WorkerJobs.JobThrew))
  {
  }

  // The session-resume job acts on a case at a checkpoint or at PAYMENT_REQUIRED whose session is its
  // own: it leaves the checkpoint to the session's target, MONITORING without one, unless the
  // adapter throws or asks for the user again; and it confirms a payment that was made.
  lemma ResumeJobComesTo(s: Status, script: Script)
    ensures var resumed, pay, done := script.answer(ResumeSession), script.answer(GetPaymentState), script.answer(GetConfirmation);
            var owned := script.session.Session? && script.session.owned;
            var paid := pay.Success? && pay.data.paid;
            var plan := WorkerJobs.ResumePlan(s, script);
            && Walks(s, plan.tries, Actor.Worker,
                     if s == HumanVerification && owned && !resumed.Throws? && !resumed.HumanAction?
                     then [if script.session.resumeTo.Some? then script.session.resumeTo.value else Monitoring]
                     else if s == PaymentRequired && owned && paid
                     then [PaymentProcessing] + if done.Success? then [Confirmed] else []
                     else [])
            && (forall e :: e in plan.tries ==> e.meta == Meta(None, None, None))
            && plan.report == (if s != HumanVerification && s != PaymentRequired then WorkerJobs.Skipped
                               else if script.session.NoSession? then WorkerJobs.NoActiveSession
                               else if !owned then WorkerJobs.SessionOwnerMismatch
                               else if s == HumanVerification
                               then if resumed.Throws? then WorkerJobs.JobThrew
                                    else if resumed.HumanAction? then WorkerJobs.StillHuman
                                    else WorkerJobs.Resumed
                               else if pay.Throws? || (paid && done.Throws?) then WorkerJobs.JobThrew
                               else if paid && done.Success? then WorkerJobs.Completed
                               else WorkerJobs.PaymentPending)
  {
  }

  // The reconciliation confirms a case that was paying, and hands a payment over that the page asks
  // for; every other combination is left to the user.
  lemma ReconciliationComesTo(candidate: Status, remote: RemoteState)
    ensures var to := if remote == RemoteConfirmed then Confirmed else PaymentRequired;
            var writes := || (remote == RemoteConfirmed && candidate in {PaymentProcessing, PaymentRequired})
                          || (remote == RemotePaymentRequired && candidate == AppointmentSelected);
            WorkerJobs.ReconcilePlan(candidate, remote)
            == if writes then WorkerJobs.Plan([Entry(candidate, to, Actor.Worker, Meta(None, None, None))], WorkerJobs.Reconciled)
               else WorkerJobs.Plan([], WorkerJobs.NeedsAttention)
  {
  }
}
