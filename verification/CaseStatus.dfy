// The canonical state machine of a booking case: 17 statuses, the transition
// table, the terminal statuses and the statuses a human checkpoint may resume to.
module CaseStatus {

  datatype Status =
    | Draft
    | Ready
    | Authenticating
    | HumanVerification
    | Monitoring
    | WaitingQueue
    | SlotFound
    | Booking
    | AddingApplicants
    | AppointmentSelected
    | PaymentRequired
    | PaymentProcessing
    | Confirmed
    | SlotLost
    | Expired
    | Failed
    | Cancelled

  predicate IsTerminal(s: Status) {
    s in {Confirmed, Expired, Failed, Cancelled}
  }

  predicate IsAllowedResumeTarget(s: Status) {
    s in {Authenticating, Monitoring, WaitingQueue, Booking, AddingApplicants,
          AppointmentSelected, PaymentRequired, PaymentProcessing}
  }

  // The transition table, row by row.
  predicate CanTransition(from: Status, to: Status) {
    match from
    case Draft => to in {Ready, Cancelled}
    case Ready => to in {Authenticating, Cancelled}
    case Authenticating => to in {Monitoring, WaitingQueue, HumanVerification, Failed, Cancelled}
    case Monitoring => to in {SlotFound, HumanVerification, Failed, Cancelled}
    case WaitingQueue => to in {SlotFound, HumanVerification, Expired, Failed, Cancelled}
    case SlotFound => to in {Booking, SlotLost, Expired, Failed, Cancelled}
    case Booking => to in {AddingApplicants, HumanVerification, SlotLost, Failed, Cancelled}
    case AddingApplicants => to in {AppointmentSelected, HumanVerification, SlotLost, Failed, Cancelled}
    case AppointmentSelected => to in {PaymentRequired, HumanVerification, Expired, Failed, Cancelled}
    case PaymentRequired => to in {PaymentProcessing, HumanVerification, Expired, Failed, Cancelled}
    case PaymentProcessing => to in {Confirmed, HumanVerification, Expired, Failed, Cancelled}
    case SlotLost => to in {Monitoring, WaitingQueue, Failed, Cancelled}
    case HumanVerification => IsAllowedResumeTarget(to) || to in {Failed, Cancelled}
    case Confirmed => false
    case Expired => false
    case Failed => false
    case Cancelled => false
  }

  // The table and the terminal list agree: a status is terminal exactly when it has no way
  // out, and every other status can be abandoned by cancelling.
  lemma TerminalMeansNoWayOut(s: Status)
    ensures IsTerminal(s) <==> forall to :: !CanTransition(s, to)
    ensures !IsTerminal(s) <==> CanTransition(s, Cancelled)
  {
    if !IsTerminal(s) {
      assert CanTransition(s, Cancelled);
    }
  }

  // A checkpoint resumes to exactly the listed targets, apart from giving up, and these are the
  // statuses it can be entered from: every challenge can be resumed where it arose.
  lemma ResumeTargetsAreTheCheckpointExits(s: Status)
    ensures IsAllowedResumeTarget(s) <==> CanTransition(HumanVerification, s) && !IsTerminal(s)
    ensures IsAllowedResumeTarget(s) <==> CanTransition(s, HumanVerification)
  {
  }
}
