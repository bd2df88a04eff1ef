# Verification of the booking-case system

The system takes a group of visa applicants through an appointment booking. A case is one
database row with a status, seventeen of them, and a history to which every change of status is
appended. Engine calls from the API, queue workers, a reconciliation job and users act on a case
concurrently. They are held together by a transition matrix, a transition service that checks it,
a compare-and-set with an appended history entry in one transaction, idempotency guards and a
Redis lock with a time to live and a heartbeat. Around this stand drafts with ordered applicants,
three small limiters, a retry loop, the choice of an appointment and the envelope of encrypted
fields.

`dafny verify dfyconfig.toml` checks everything.

## How the parts fit together

The core is an interleaved protocol. `Programs` gives every engine call, worker job and markReady
as a program whose points are the awaits of the source; `Protocol` runs any number of them on one
case, one operation at a time, in any order, with arbitrary answers from the provider adapter and
with the transition service itself split into load, check and compare-and-set. A run keeps a tally
of what the theorems' conditions speak of, each decided before the write it counts.
`ProtocolTheorems` proves what holds in every run, `ResumeFidelity` when checkpoints are left as
recorded, `SlotHandover` which slot is booked, `Confirmations` what lies behind a confirmation, and
`RepositoryRuns` what holds only because nothing but the engine calls the transition service.
`LockRuns` and `LockReports` model the lock in time, and `LockedEngine` puts the engine under the
lock, among programs that take none.

`EngineCalls` and `WorkerJobs` have the same calls and jobs as sequential code on the stored row
of `CaseRecord`. What they write is stated once, from the adapter's answers, and both the
sequential code and the program of the protocol are proved to follow it. `Outcomes` says what each
call and job comes to by the answers alone, without naming any part of the code. `Divergences`
builds its reachable runs from these routes and plans: every run in it consists of programs the
repository has.

`DraftLinks` and `CaseReadiness` cover the applicants of a draft and markReady, `RateLimit`,
`IdempotencyKeys` and `ProviderLimiter` the limiters, each against a reference that forgets nothing,
and `RetryPolicy`, `AvailabilityMatching` and `Envelope` the rest.

## What does not hold

Where the code falls short of what its design describes, the code is modelled as it is, a lemma
gives a run or an input, and another gives the exact condition where there is one:

- READY is written without looking at the stored status, so a case that has failed meanwhile is
  revived (`ReadyRevivesFailedCase`; exactly through such writes the history is no chain and a
  terminal status is left: `ChainExactlyWithoutRace`, `TerminalAbsorbs`).
- The booking worker ignores a refused write (`TwoBookingJobsBookTwice`; exact condition:
  `WorkerBookingsExactly`).
- The resume check reads the history before the compare-and-set (`InterleavedResumeIsUnfaithful`),
  and the session-resume worker does not consult the history at all (`WorkerResumeIsUnfaithful`;
  exact condition for both: `FaithfulExactly`; under the lock only workers can cause the first:
  `OnlyWorkersMislead`).
- The engine reads a slot under the name slotCandidate, and the availability worker records it under
  the name slot, so a slot that the worker found is replaced by a made-up one
  (`WorkersSlotIsNotBooked`); and the slot is read before BOOKING is entered, so it can be an earlier
  one (`StaleSlotIsBooked`). Exact condition: `FoundSlotIsHandedOverExactly`; what it takes:
  `MisbookingTakesAWorkerOrARace`; under the lock only workers can cause it: `OnlyWorkersMisbook`.
- The matrix lets a case leave SLOT_LOST, but no program does it (`SlotLostAbsorbs`).
- A recorded resume target may lie many stages ahead, and reconciliation confirms from
  PAYMENT_REQUIRED, so with workers a confirmation can lack stages (`CarelessResumeSkipsTheBooking`,
  `ReconciledConfirmationLeaps`; exact condition for histories without gaps: `GaplessExactly`).
  Without workers it cannot: `ApiConfirmationSkipsNothing`.
- executeBooking confirms a case although calls after beginBooking returned failures, and a call
  that throws strands the case (`ConfirmsExactly`, `ThrowStrandsTheCase`).
- The availability worker looks for slots while a case waits in the queue and cannot record one: no
  entry of a worker leaves WAITING_QUEUE (`HistoryConforms`).
- Heartbeat timers are kept by lock key, so after a lapse one holder stops another's timer
  (`FirstToFinishStopsTheOthersTimer`; without a lapse they serve their own body:
  `HeartbeatsServeTheirBody`).
- A SET that takes effect while its answer is lost leaves a lock that nobody gives back
  (`LostAnswerLeavesALock`; what refuses an acquisition: `AcquisitionExactly`).
- The heartbeat interval is not compared with a time to live that a caller gives, and a short one
  lapses although timers are on time (`ShortLeasesOverlapExactly`).
- A reorder can collide once positions exceed the offset (`LargePositionsCollide`; exact
  condition: `ReorderExactly`).
- A stray release defeats the global session limit (`StrayReleaseBreaksTheLimit`; exact
  condition: `ReleaseConservesExactly`).
- When the system clock goes back the idempotency guard forgets keys (`BackwardClockForgets`; what it
  turns away by any clock: `RejectsExactly`).
- When the system clock goes back the rate limiter lets too many through
  (`BackwardClockOverfills`; what it accepts by any clock: `AdmitsExactly`; when pruning matters:
  `PruningMattersExactly`).

## Model

| member | source | states |
|---|---|---|
| `ProtocolTheorems.AtMostOneBookingPerSlot` | apps/api/src/modules/orchestrator/services/orchestration-engine.service.ts:259-268 | In every interleaving of any programs, with or without a lock, the engine has called beginBooking at most as often as its own entries SLOT_FOUND→BOOKING are recorded, and there are no more of those than entries into SLOT_FOUND. |
| `ProtocolTheorems.BookingsAreAccountedFor` | apps/worker/src/queues/booking.worker.ts:76-88 | The exact ledger behind it, for engine and worker: bookings begun or about to begin equal the recorded entries, less the bare writes of other callers and plus the worker's refused writes. |
| `ProtocolTheorems.WorkerBookingsExactly` | apps/worker/src/queues/booking.worker.ts:76-88 | Once no job is about to begin one, the booking worker, which ignores the answer of its compare-and-set, has begun no more bookings than it recorded if and only if none of its writes was refused. |
| `ProtocolTheorems.ChainExactlyWithoutRace` | apps/api/src/modules/orchestrator/repositories/orchestrator.repository.ts:58-116 | The history starts from DRAFT, every entry continues the previous one and the last one ends in the stored status if and only if no write of READY found another status than DRAFT. |
| `ProtocolTheorems.HistoryBalances` | apps/api/src/modules/orchestrator/repositories/orchestrator.repository.ts:58-116 | In every such run entries into a status minus exits from it are one where the case is and zero elsewhere (DRAFT counts its creation). |
| `ProtocolTheorems.HistoryIsAppendOnly` | apps/worker/src/repositories/worker.repository.ts:43-98 | No event removes or changes an entry, and the stored status changes only together with a new entry. |
| `ProtocolTheorems.HistoryConforms` | apps/api/src/modules/orchestrator/services/case-transition.service.ts:46-91 | Whatever interferes, every entry written through the transition service is an edge of the matrix; a worker's entry is one too unless it leaves the checkpoint or is APPOINTMENT_SELECTED→SLOT_LOST or PAYMENT_REQUIRED→CONFIRMED, and none of a worker's leaves WAITING_QUEUE. |
| `ProtocolTheorems.TerminalAbsorbs` | packages/provider-core/src/state-machine/transition-matrix.ts:3-8 | From a terminal status the case, status and history, stays as it is through any run if and only if the unconditional write of READY did not land on it. |
| `ProtocolTheorems.ExitsNeedEntries` | packages/provider-core/src/state-machine/transition-matrix.ts:21-123 | With no proviso at all, a status other than DRAFT is never left more often than it was entered. |
| `ProtocolTheorems.MixedRunLengthBound` | apps/worker/src/queues/session-resume.worker.ts:104-113 | A history with worker edges and v visits to HUMAN_VERIFICATION_REQUIRED and SLOT_LOST has at most 11v + 10 entries. |
| `ProtocolTheorems.EveryRunIsBounded` | apps/worker/src/reliability/job-recovery.service.ts:42-49 | The same bound for every interleaved run of engine, workers and reconciliation without a race on READY. |
| `ProtocolTheorems.MixedRunLengthBoundIsTight` | apps/worker/src/queues/session-resume.worker.ts:101-113 | For every v a chain of permitted entries of exactly that length: the session row may send a case back to DRAFT. Chains permitted to any caller of the transition service; for runs of the repository's programs the bound is smaller, see RepositoryRuns. |
| `ProtocolTheorems.BookingJobElsewhereWritesNothing` | apps/worker/src/queues/booking.worker.ts:76-180 | In every interleaving, a booking job under way while the case is at none of the statuses it writes from, because another program took it or its write was refused, changes nothing, whatever the adapter answers. |
| `ProtocolTheorems.RunWellFormed` | apps/api/src/modules/orchestrator/services/case-transition.service.ts:46-91 | Every reachable state keeps the checks a program in mid-transition has passed, and every recorded entry permitted. |
| `Protocol.UninterruptedTransition` | apps/api/src/modules/orchestrator/services/case-transition.service.ts:40-91 | The three operations load, check, compare-and-set, run without interference, amount to the transition as one step, errors included. |
| `Protocol.StepWrites` | apps/worker/src/repositories/worker.repository.ts:43-98 | One operation of any program leaves the case alone or appends one permitted entry, which starts from the stored status unless it is the write of READY. |
| `Protocol.RunFromAppend` | apps/api/src/modules/orchestrator/services/orchestration-engine.service.ts:90-402 | A run continues where its prefix stopped. |
| `Protocol.LaunchesAtTheBeginning` | apps/api/src/modules/orchestrator/services/orchestration-engine.service.ts:90-402 | Every call, job and request can be launched at its beginning, and nothing else can. |
| `Programs.GuardsFollowTheMatrix` | apps/api/src/modules/orchestrator/services/idempotency-guard.service.ts:11-98 | A guard lets its operation run exactly where the matrix has the edge the operation needs, and the resume guard excludes the other two. |
| `CaseStatus.TerminalMeansNoWayOut` | packages/provider-core/src/state-machine/booking-case-state-machine.ts:32-34 | The four listed terminal statuses are exactly those without an outgoing edge. |
| `CaseStatus.ResumeTargetsAreTheCheckpointExits` | packages/provider-core/src/state-machine/transition-matrix.ts:10-19 | The listed resume targets are exactly the edges out of the checkpoint that do not end the case, and exactly the statuses it can be entered from. |
| `CaseHistory.TableByStage` | packages/provider-core/src/state-machine/transition-matrix.ts:21-123 | The whole matrix read by target: along the route an edge leads one stage on and no further; the checkpoint is entered from AUTHENTICATING to PAYMENT_PROCESSING except from SLOT_FOUND, and left to where it can be entered from; and exactly which statuses can lose the slot, look for a new one, expire, fail and be cancelled. |
| `CaseHistory.RunLengthBound` | packages/provider-core/src/state-machine/transition-matrix.ts:21-123 | Away from HUMAN_VERIFICATION_REQUIRED and SLOT_LOST every edge raises a rank of at most 10, so a canonical run with v visits to those two has at most 9v + 10 transitions. |
| `CaseHistory.RunLengthBoundIsTight` | packages/provider-core/src/state-machine/transition-matrix.ts:21-123 | For every v there is a canonical run to CONFIRMED of exactly that length. |
| `CaseHistory.FlowBalance` | apps/api/src/modules/orchestrator/repositories/orchestrator.repository.ts:84-96 | In a chain, entries and exits of every status balance up to the current one. |
| `CaseHistory.GaplessConfirmation` | packages/provider-core/src/state-machine/transition-matrix.ts:21-116 | A confirmed history without gaps visited READY, AUTHENTICATING, MONITORING or WAITING_QUEUE, SLOT_FOUND, BOOKING, ADDING_APPLICANTS, APPOINTMENT_SELECTED, PAYMENT_REQUIRED and PAYMENT_PROCESSING. |
| `CaseHistory.CarefulCheckpointsLeaveNoGap` | packages/provider-core/src/state-machine/transition-matrix.ts:10-116 | A canonical history with faithful resumes, each recorded target at most one stage past its challenge, never has a gap. |
| `Confirmations.ApiConfirmationSkipsNothing` | apps/api/src/modules/orchestrator/services/orchestration-engine.service.ts:90-402 | In every interleaving of any number of engine calls and markReady, without a lock, with any resume targets and with races on READY, a confirmed case went through all of these. |
| `Confirmations.EngineConfirmsAfterBooking` | apps/api/src/modules/orchestrator/services/orchestration-engine.service.ts:303-358 | Among workers and reconciliation too: when the engine writes CONFIRMED, the case went through every stage from SLOT_FOUND on. |
| `Confirmations.EngineConfirmsOnlyWhenAnswered` | apps/api/src/modules/orchestrator/services/orchestration-engine.service.ts:267-358 | In every interleaving of the repository's programs, when the engine writes CONFIRMED, that call of executeBooking got answers that did not lose the slot, did not throw and neither challenged nor deferred the payment. |
| `Confirmations.GaplessExactly` | apps/worker/src/queues/session-resume.worker.ts:101-165 | In every interleaving of all programs the history is without gaps at every moment if and only if no resume and no reconciled confirmation passed over a level not visited before; the condition is read off the history before the write. |
| `Confirmations.ConfirmationWithoutLeaps` | apps/worker/src/reliability/job-recovery.service.ts:40-49 | Then every confirmation, by whichever program, has all stages behind it. |
| `ResumeFidelity.FaithfulExactly` | apps/api/src/modules/orchestrator/services/case-transition.service.ts:63-91 | In every interleaving of all programs, workers included and without a lock, every exit from the checkpoint other than to FAILED or CANCELLED goes to the recorded target if and only if no resume of the service was written, after the history grew since its check, out of a checkpoint with another target, and no session-resume job wrote another target than the recorded one. |
| `ResumeFidelity.FreshResumesAreFaithful` | apps/api/src/modules/orchestrator/services/case-transition.service.ts:69-83 | It is enough that no resume of the service is written after the history has grown since its check and that workers resume to what is recorded. |
| `ResumeFidelity.ResumesInTurn` | apps/api/src/modules/orchestrator/services/orchestration-engine.service.ts:365-397 | When programs take turns no resume is stale, so all are faithful, and executeResume never meets the mismatch error. |
| `ResumeFidelity.CommitsSucceed` | apps/api/src/modules/orchestrator/repositories/orchestrator.repository.ts:58-77 | When programs take turns, no compare-and-set of the transition service comes too late. |
| `ResumeFidelity.BooksTheSlotFound` | apps/api/src/modules/orchestrator/services/orchestration-engine.service.ts:246-268 | When programs take turns, beginBooking is called, unless the caller gave a slot, with the slot the engine recorded when the case entered SLOT_FOUND, and that is the slot found if and only if the engine recorded one; for a slot the availability worker found it is called with none, which stands for a made-up one. |
| `ResumeFidelity.RunInTurnIsCanonical` | apps/api/src/modules/orchestrator/services/case-transition.service.ts:58-61 | In such runs the history is a chain of edges of the matrix. |
| `ResumeFidelity.RunInTurnIsBounded` | packages/provider-core/src/state-machine/transition-matrix.ts:21-123 | Such runs obey the bound 9v + 10. |
| `ResumeFidelity.RunCalm` | apps/api/src/modules/orchestrator/services/case-transition.service.ts:63-91 | The invariant behind them: what a program in its turn has read is still true when it writes. |
| `SlotHandover.FoundSlotIsHandedOverExactly` | apps/api/src/modules/orchestrator/services/orchestration-engine.service.ts:246-268 | In every interleaving of all programs, workers included and without a lock, whoever is about to call beginBooking with a slot that was not given by the caller has, at every moment, the slot that was found when the case entered SLOT_FOUND before that booking, if and only if no booking was entered with another slot than the one on record, or with none. |
| `SlotHandover.MisbookingTakesAWorkerOrARace` | apps/api/src/modules/orchestrator/services/orchestration-engine.service.ts:249-265 | Among the repository's programs that takes a history that has grown since the slot was read or an entry into SLOT_FOUND by a worker; with a history that has not grown it happens if and only if that entry is a worker's. |
| `SlotHandover.RunsNameSlots` | apps/worker/src/queues/availability.worker.ts:245-256 | Behind it: in every run of the repository's programs the service's entries into SLOT_FOUND all carry slotCandidate, the workers' entries never do, and a slot read from a history that has not grown since is what the latest entry carries. |
| `RepositoryRuns.SlotLostAbsorbs` | packages/provider-core/src/state-machine/transition-matrix.ts:105-110 | Though the matrix lets a case leave SLOT_LOST, no program of the repository takes it out: through any run, whatever is under way, the case stays as it is if and only if no write of READY landed on it. |
| `RepositoryRuns.RepositoryRunIsBounded` | apps/worker/src/queues/session-resume.worker.ts:101-113 | Every run of the repository's programs, with workers and reconciliation and without a race on READY, has at most 9 transitions per visit to HUMAN_VERIFICATION_REQUIRED and 10 more. |
| `RepositoryRuns.RepositoryBoundIsAttained` | apps/worker/src/queues/booking.worker.ts:150-170 | For every number of visits there is a reachable run of exactly that length, without a race, that ends in CONFIRMED: the booking job is challenged at the payment and the session row sends the case back to DRAFT. |
| `Divergences.ReadyRevivesFailedCase` | apps/api/src/modules/booking-cases/booking-cases.repository.ts:165-203 | A reachable run: two calls of markReady validate, the first writes, authentication fails for good, and the second takes the case from FAILED back to READY; the history is no chain. |
| `Divergences.TwoBookingJobsBookTwice` | apps/worker/src/queues/booking.worker.ts:76-90 | A reachable run in which two booking jobs begin two bookings of which one is recorded. |
| `Divergences.InterleavedResumeIsUnfaithful` | apps/api/src/modules/orchestrator/services/case-transition.service.ts:69-91 | A reachable run: executeResume has read the history, the session-resume job leaves the checkpoint, to the recorded target, the availability job enters another, and the engine resumes from that to the target of the first. Up to there the history is faithful; the engine's entry, which is counted as misled, makes it unfaithful. |
| `Divergences.WorkersSlotIsNotBooked` | apps/worker/src/queues/availability.worker.ts:245-256 | A reachable run without interference: the availability job finds a slot, and executeBooking is about to call beginBooking with a made-up one. |
| `Divergences.StaleSlotIsBooked` | apps/api/src/modules/orchestrator/services/orchestration-engine.service.ts:246-265 | A reachable run: executeBooking reads a slot, the booking job books and is challenged, the session-resume job has the case monitored again, the availability job finds another slot, and executeBooking enters BOOKING with the first one. |
| `Divergences.WorkerResumeIsUnfaithful` | apps/worker/src/queues/session-resume.worker.ts:101-113 | A reachable run in which the session-resume worker leaves the checkpoint to another status than the recorded one. |
| `Divergences.CarelessResumeSkipsTheBooking` | apps/worker/src/queues/session-resume.worker.ts:125-165 | A reachable run in which a challenge at the login records PAYMENT_REQUIRED, executeResume follows it and the session-resume job confirms: a faithful chain of matrix edges without slot or booking. |
| `Divergences.ReconciledConfirmationLeaps` | apps/worker/src/reliability/job-recovery.service.ts:40-49 | A reachable run in which reconciliation confirms a case that never entered PAYMENT_PROCESSING. |
| `Divergences.ThrowStrandsTheCase` | apps/api/src/modules/orchestrator/services/orchestration-engine.service.ts:225-362 | For every way a call of executeBooking can throw there is a reachable run that ends there with nothing under way, and from then on no interleaving of engine calls and markReady changes the case. |
| `CaseRecord.CaseRow.AtomicStatusTransition` | apps/api/src/modules/orchestrator/repositories/orchestrator.repository.ts:58-116 | Row and history change together if the stored status is the expected one; otherwise nothing changes and the stale status is raised. |
| `CaseRecord.CaseRow.AtomicConditionalTransition` | apps/worker/src/repositories/worker.repository.ts:43-98 | The same write with a boolean for an answer. |
| `CaseRecord.CaseRow.TransitionToReady` | apps/api/src/modules/booking-cases/booking-cases.repository.ts:165-203 | It amounts to the guarded compare-and-set if and only if the stored status is DRAFT; otherwise the status is lost and the entry is false. |
| `CaseRecord.CaseRow.GetLatestStateHistory` | apps/api/src/modules/orchestrator/repositories/orchestrator.repository.ts:51-56 | The entry after which the history has no other, or none for an empty history. |
| `CaseRecord.CaseRow.Transition` | apps/api/src/modules/orchestrator/services/case-transition.service.ts:40-91 | The sequential service: new case and error as the one-step specification has them, for every request. |
| `CaseRecord.TransactExactly` | apps/api/src/modules/orchestrator/services/case-transition.service.ts:40-91 | A request is granted if and only if it expects the stored status or none, the matrix has the edge and the recorded target, if any, is kept; the new row and entry, and for each refusal the error with its statuses, are spelled out. |
| `CaseRecord.WritesExactly` | apps/api/src/modules/orchestrator/repositories/orchestrator.repository.ts:58-116 | The guarded write lands and says so if and only if the stored status is the expected one; the unguarded one always lands, with an entry from DRAFT. |
| `Outcomes.AuthenticationComesTo` | apps/api/src/modules/orchestrator/services/orchestration-engine.service.ts:100-164 | By the two answers: the statuses executeAuthentication writes from READY, with WAITING_QUEUE or MONITORING as the inspection says, or as configured if it fails without throwing; the recorded target of a challenge; and the report. |
| `Outcomes.CheckComesTo` | apps/api/src/modules/orchestrator/services/orchestration-engine.service.ts:185-222 | The one entry an availability check writes, with the slot, if and only if one was found, and what each answer is reported as. |
| `Outcomes.BookingComesTo` | apps/api/src/modules/orchestrator/services/orchestration-engine.service.ts:260-362 | By the five answers: the statuses executeBooking writes from SLOT_FOUND, to where it stops, and the recorded target of a challenge at the payment. |
| `Outcomes.ResumeComesTo` | apps/api/src/modules/orchestrator/services/orchestration-engine.service.ts:380-397 | executeResume writes the recorded target, or AUTHENTICATING, if and only if a challenge can arise there or the target gives up. |
| `Outcomes.BookingJobComesTo` | apps/worker/src/queues/booking.worker.ts:65-204 | By the four answers: the writes the booking job tries from SLOT_FOUND, the recorded targets and the report; elsewhere it skips. |
| `Outcomes.AvailabilityJobComesTo` | apps/worker/src/queues/availability.worker.ts:82-240 | By the answers: the writes the availability job tries while it signs in, WAITING_QUEUE or MONITORING as configured for the route, and its reports; a case that is monitored or waits is only looked after. |
| `Outcomes.LookingComesTo` | apps/worker/src/queues/availability.worker.ts:227-317 | Looking for a slot: a challenge or a found slot, under the name slot, both from MONITORING, and every report. |
| `Outcomes.ResumeJobComesTo` | apps/worker/src/queues/session-resume.worker.ts:75-172 | By the session row and the answers: the target the session-resume job tries, MONITORING without one, the payment it confirms, and every report. |
| `Outcomes.ReconciliationComesTo` | apps/worker/src/reliability/job-recovery.service.ts:40-131 | The two writes of the reconciliation, and that every other combination is left to the user. |
| `Programs.TwoReadings` | apps/api/src/modules/orchestrator/services/orchestration-engine.service.ts:179-187 | The calls read the status twice: the guard's reading decides, and the second one is what a found slot's transition expects. |
| `EngineCalls.OrchestrationEngine.ExecuteAuthentication` | apps/api/src/modules/orchestrator/services/orchestration-engine.service.ts:90-164 | Run alone, it appends the route that the adapter's answers determine, reports accordingly, and from any status but READY raises the stale status and writes nothing. |
| `EngineCalls.OrchestrationEngine.ExecuteAvailabilityCheck` | apps/api/src/modules/orchestrator/services/orchestration-engine.service.ts:167-222 | It writes SLOT_FOUND, with the slot as metadata, exactly when the guard lets it run and a slot was found; every other answer leaves the case alone and is reported as such. |
| `EngineCalls.OrchestrationEngine.ExecuteBooking` | apps/api/src/modules/orchestrator/services/orchestration-engine.service.ts:225-362 | From SLOT_FOUND it appends the booking route; the slot it hands over is the override or else the one recorded last; from any other status it only reports that it skipped. |
| `EngineCalls.OrchestrationEngine.SettlePayment` | apps/api/src/modules/orchestrator/services/orchestration-engine.service.ts:300-361 | Its part from the payment state on. |
| `EngineCalls.OrchestrationEngine.ExecuteResume` | apps/api/src/modules/orchestrator/services/orchestration-engine.service.ts:365-402 | It leaves the checkpoint to the recorded target, or AUTHENTICATING without one, raises if that is no edge, and writes nothing elsewhere. |
| `EngineCalls.AuthenticationRuns` | apps/api/src/modules/orchestrator/services/orchestration-engine.service.ts:90-164 | The program of the interleaved protocol, run alone, follows the same route within 7 operations, from every status and for all answers. |
| `EngineCalls.CheckRuns` | apps/api/src/modules/orchestrator/services/orchestration-engine.service.ts:167-222 | Likewise executeAvailabilityCheck, within 5 operations. |
| `EngineCalls.BookingRuns` | apps/api/src/modules/orchestrator/services/orchestration-engine.service.ts:225-362 | Likewise executeBooking, within 20 operations. |
| `EngineCalls.ResumeRuns` | apps/api/src/modules/orchestrator/services/orchestration-engine.service.ts:365-402 | Likewise executeResume, within 7 operations. |
| `EngineCalls.GuardsReadTheStage` | apps/api/src/modules/orchestrator/services/idempotency-guard.service.ts:11-80 | An availability check or booking is reported as already applied if and only if the case has reached its stage and was not given up; otherwise a skipped one is stale. |
| `EngineCalls.ConfirmsExactly` | apps/api/src/modules/orchestrator/services/orchestration-engine.service.ts:267-361 | A booking is confirmed if and only if beginBooking did not lose the slot, none of the five calls threw, and payment was neither challenged nor deferred to a payment page. Failures that are returned instead of thrown, even by getConfirmation, do not prevent the confirmation. |
| `EngineCalls.BookingReportsWhereItStopped` | apps/api/src/modules/orchestrator/services/orchestration-engine.service.ts:225-362 | Every outcome executeBooking reports from SLOT_FOUND names the status it left the case at; a throw leaves it at BOOKING, ADDING_APPLICANTS, APPOINTMENT_SELECTED or PAYMENT_PROCESSING. |
| `EngineCalls.ThrownBookingIsNotRetried` | apps/api/src/modules/orchestrator/services/idempotency-guard.service.ts:48-80 | A case where a throw leaves it stays there in every interleaving of later engine calls and markReady, from any state with nothing else mid-way; booking again is skipped as already applied. |
| `WorkerJobs.WorkerProcess.ProcessBooking` | apps/worker/src/queues/booking.worker.ts:55-204 | The booking job's writes and report, for every stored status and all answers, are those of its plan; each write is tried whatever came of the one before. |
| `WorkerJobs.WorkerProcess.SubmitApplicants` | apps/worker/src/queues/booking.worker.ts:115-204 | Its part from addApplicants on. |
| `WorkerJobs.WorkerProcess.ProcessAvailability` | apps/worker/src/queues/availability.worker.ts:72-318 | The availability job likewise; only READY is moved to AUTHENTICATING, and a retry at AUTHENTICATING signs in again. |
| `WorkerJobs.WorkerProcess.LookForSlot` | apps/worker/src/queues/availability.worker.ts:215-317 | Its part after signing in; both of its writes start from MONITORING, and a slot is recorded as slot, not as slotCandidate. |
| `WorkerJobs.WorkerProcess.ProcessResume` | apps/worker/src/queues/session-resume.worker.ts:64-172 | The session-resume job likewise, with the resume target taken from the session row or MONITORING. |
| `WorkerJobs.WorkerProcess.ReconcileWithPage` | apps/worker/src/reliability/job-recovery.service.ts:33-131 | Reconciliation writes only CONFIRMED from a payment status and PAYMENT_REQUIRED from APPOINTMENT_SELECTED. |
| `WorkerJobs.BookingRuns` | apps/worker/src/queues/booking.worker.ts:55-204 | The booking job of the interleaved protocol, run alone, tries the same writes within 9 operations. |
| `WorkerJobs.AvailabilityRuns` | apps/worker/src/queues/availability.worker.ts:72-318 | Likewise the availability job, within 7 operations. |
| `WorkerJobs.ResumeRuns` | apps/worker/src/queues/session-resume.worker.ts:64-172 | Likewise the session-resume job, within 6 operations. |
| `WorkerJobs.ReconcileRuns` | apps/worker/src/reliability/job-recovery.service.ts:33-131 | Likewise the reconciliation, in two operations. |
| `CaseLock.StrangersChangeNothing` | apps/api/src/modules/orchestrator/infrastructure/locks/case-lock.service.ts:9-23 | Renewal and release answer no and leave the store as it is if and only if the handle's token is not the live one; no script touches another key. |
| `CaseLock.StartKeepsOneTimer` | apps/api/src/modules/orchestrator/infrastructure/locks/case-lock.service.ts:104-140 | Starting a heartbeat replaces whatever timer ran for the key, and keeps one timer per key. |
| `CaseLock.StopKeepsOneTimer` | apps/api/src/modules/orchestrator/infrastructure/locks/case-lock.service.ts:134-140 | Stopping removes the timers of the key and no others. |
| `CaseLock.KeysAgree` | apps/worker/src/reliability/orphan-case-recovery.service.ts:28 | The API and the orphan recovery lock the same key if and only if the API's prefix is left out or is the default one. |
| `CaseLock.LockLife` | apps/api/src/modules/orchestrator/infrastructure/locks/case-lock.service.ts:9-23 | A lock that was set, or renewed by its holder, lives for exactly its time to live from then on, a released one is gone, and exactly when SET answers an error or nothing. |
| `CaseLock.DefaultService` | apps/api/src/modules/orchestrator/infrastructure/locks/case-lock.service.ts:25-51 | Without a configuration a lock lives thirty seconds, is renewed every ten, and its key is visaflow:case:, the case and :lock. |
| `CaseLock.Redis.SetNxPx` | apps/api/src/modules/orchestrator/infrastructure/locks/case-lock.service.ts:53-74 | SET NX PX succeeds only if no live value is stored, and fails with an error for a time to live that is not positive. |
| `CaseLock.Redis.EvalRenew` | apps/api/src/modules/orchestrator/infrastructure/locks/case-lock.service.ts:9-15 | The renewal script on the store. |
| `CaseLock.Redis.EvalRelease` | apps/api/src/modules/orchestrator/infrastructure/locks/case-lock.service.ts:17-23 | The release script on the store. |
| `CaseLock.CaseLockService.AcquireLock` | apps/api/src/modules/orchestrator/infrastructure/locks/case-lock.service.ts:53-74 | A handle with the default or given time to live exactly when that is positive and no live lock is stored, a conflict exactly when it is positive and one is, the error of Redis when it is not positive, and the new store. |
| `CaseLock.CaseLockService.RenewLock` | apps/api/src/modules/orchestrator/infrastructure/locks/case-lock.service.ts:76-87 | Renewal with the given or the handle's time to live. |
| `CaseLock.CaseLockService.ReleaseLock` | apps/api/src/modules/orchestrator/infrastructure/locks/case-lock.service.ts:89-102 | The key's timer is stopped, whoever's it is, and the lock deleted only if the token is still its own. |
| `CaseLock.CaseLockService.StartHeartbeat` | apps/api/src/modules/orchestrator/infrastructure/locks/case-lock.service.ts:104-132 | A new timer for the key in place of an old one. |
| `CaseLock.CaseLockService.StopHeartbeat` | apps/api/src/modules/orchestrator/infrastructure/locks/case-lock.service.ts:134-140 | The timer registered for the key is gone. |
| `CaseLock.CaseLockService.Beat` | apps/api/src/modules/orchestrator/infrastructure/locks/case-lock.service.ts:109-124 | A beat that is refused or fails stops the key's timer and reports the loss; one that succeeds renews and changes nothing else. |
| `CaseLock.CreateService` | apps/api/src/modules/orchestrator/infrastructure/locks/case-lock.service.ts:30-44 | A configuration is refused exactly when the interval is not less than the time to live; the default one is not. |
| `LockRuns.RunLockInv` | apps/api/src/modules/orchestrator/infrastructure/locks/case-lock.service.ts:39-163 | The invariant of every timed run: a leased body's token and expiry are what is stored, timers belong to their process and key, and results tell of losses. |
| `LockRuns.AtMostOneLease` | apps/api/src/modules/orchestrator/infrastructure/locks/case-lock.service.ts:53-102 | At every moment at most one unfinished body has an unexpired lease, and the stored token is its own. |
| `LockRuns.LeaseBlocksOthers` | apps/api/src/modules/orchestrator/infrastructure/locks/case-lock.service.ts:53-74 | No acquisition changes anything while a body has an unexpired lease. |
| `LockRuns.AcquisitionExactly` | apps/api/src/modules/orchestrator/infrastructure/locks/case-lock.service.ts:53-74 | An acquisition with a new token whose answer arrives succeeds if and only if no unfinished body has an unexpired lease and no live lock belongs to a finished body whose release is on its way or did not arrive, or was set for a caller whom the answer to SET did not reach. |
| `LockRuns.BodiesDoNotOverlap` | apps/api/src/modules/orchestrator/infrastructure/locks/case-lock.service.ts:104-163 | If every holder's last renewal is at most an interval ago that is less than its time to live, at most one body of withCaseLock or of the orphan recovery is unfinished, in any timed run with Redis faults and lost answers, to SET as to renewals. |
| `LockRuns.TimelyBodiesDoNotOverlap` | apps/worker/src/reliability/orphan-case-recovery.service.ts:27-64 | The same for holders whose last set or renewal is less than their own time to live ago; this is what an orphan recovery without heartbeat needs. |
| `LockReports.ResultExactly` | apps/api/src/modules/orchestrator/infrastructure/locks/case-lock.service.ts:142-163 | How withCaseLock ends, read off the events: with the function's error if it threw, else with the error of a lost lock if a beat of its timer failed and the callback ran before the function returned, else with the result. |
| `LockReports.RunsAreRecorded` | apps/api/src/modules/orchestrator/infrastructure/locks/case-lock.service.ts:109-124 | At every moment the failures and losses on record are those the events show. |
| `LockRuns.ReleaseIsSent` | apps/api/src/modules/orchestrator/infrastructure/locks/case-lock.service.ts:159-163 | Every body that finished, however it ended, has sent its release. |
| `LockRuns.LockIsGivenBack` | apps/api/src/modules/orchestrator/infrastructure/locks/case-lock.service.ts:89-102 | A live lock belongs to an unfinished body, or to a finished one whose release is on its way or could not be delivered, or it was set for a caller whom the answer to SET did not reach. |
| `LockRuns.LostAnswerLeavesALock` | apps/api/src/modules/orchestrator/infrastructure/locks/case-lock.service.ts:59-64 | A reachable run: SET takes effect, its answer is lost, and a live lock is left that no body holds and no release will follow. |
| `LockRuns.HeartbeatsServeTheirBody` | apps/api/src/modules/orchestrator/infrastructure/locks/case-lock.service.ts:104-140 | Though timers are kept by key, in a run without faults or lapses every unfinished body has its own timer running and no other timer runs. |
| `LockRuns.LossStopsTheTimer` | apps/api/src/modules/orchestrator/infrastructure/locks/case-lock.service.ts:109-124 | When the callback of a failed renewal has run, no timer of the lock is left in its process, and the loss is on the body's record; nothing else changes. |
| `LockRuns.BeatExactly` | apps/api/src/modules/orchestrator/infrastructure/locks/case-lock.service.ts:76-124 | What a beat does to the stored lock and the lease, by whether it reached Redis and whose the lock is, and exactly when its callback is due. |
| `LockRuns.DeliveryExactly` | apps/api/src/modules/orchestrator/infrastructure/locks/case-lock.service.ts:89-102 | A release that reaches Redis deletes exactly its own lock; one that does not is given up. |
| `LockRuns.LateHolderOverlaps` | apps/api/src/modules/orchestrator/infrastructure/locks/case-lock.service.ts:53-74 | A reachable run in which a holder late by more than its time to live overlaps with the next one. |
| `LockRuns.ShortLeasesOverlapExactly` | apps/api/src/modules/orchestrator/infrastructure/locks/case-lock.service.ts:39-58 | The service compares the heartbeat interval with its configured time to live only. Holders that were given another one, their timers on time, can overlap if and only if it is not longer than the interval. |
| `LockRuns.FirstToFinishStopsTheOthersTimer` | apps/api/src/modules/orchestrator/infrastructure/locks/case-lock.service.ts:134-140 | Of two overlapping bodies in one process, whichever finishes first stops the other's timer, and the other is not told. |
| `LockedEngine.Projects` | apps/api/src/modules/orchestrator/services/orchestration-engine.service.ts:94-95 | The engine under the timed lock, among programs that take no lock, is a run of the lock and a run of the protocol. |
| `LockedEngine.EngineCallsTakeTheLock` | apps/api/src/modules/orchestrator/services/orchestration-engine.service.ts:94-95 | Each of the four engine calls begins by taking the lock and holds it; every other program starts without. |
| `LockedEngine.EndedCallReports` | apps/api/src/modules/orchestrator/infrastructure/locks/case-lock.service.ts:150-163 | A body ends only when its call has; it reports an error if the call threw or a transition was refused, else a lost lock, else the result, and its release is sent. |
| `LockedEngine.LockSerializes` | apps/api/src/modules/orchestrator/infrastructure/locks/case-lock.service.ts:142-163 | As long as holders renew in time and no program acts without the lock, the engine's programs take turns. |
| `LockedEngine.LockedRuns` | apps/api/src/modules/orchestrator/services/orchestration-engine.service.ts:90-402 | Then, from a case in order: resumes are faithful, none is refused as a mismatch, no compare-and-set comes too late, beginBooking gets the slot the engine recorded, which is the slot found if and only if the engine recorded one and none otherwise, and the run is bounded by 9v + 10. |
| `LockedEngine.OnlyUnlockedProgramsInterfere` | apps/api/src/modules/orchestrator/services/case-transition.service.ts:69-91 | With worker jobs, reconciliation and markReady acting at any time: as long as holders renew in time, whatever was written between an engine call's checks and its write, or between its reading of the slot and the booking, was not written by the engine. |
| `LockedEngine.OnlyWorkersMislead` | apps/api/src/modules/orchestrator/services/case-transition.service.ts:69-91 | So an engine resume is misled only by a checkpoint that a worker entered meanwhile. |
| `LockedEngine.OnlyWorkersMisbook` | apps/api/src/modules/orchestrator/services/orchestration-engine.service.ts:246-268 | As long as holders renew in time, a booking is entered with another slot than the one found, or with none, only if the entry into SLOT_FOUND is a worker's. |
| `LockedEngine.MixedRuns` | apps/api/src/modules/orchestrator/infrastructure/locks/case-lock.service.ts:142-163 | Whether or not holders renew in time, such runs keep the exact conditions for faithful resumes, for no gaps and for handing over the slot that was found, the bound 9v + 10 with v challenges without a race on READY, and at most one booking of the engine per entry. |
| `LockedEngine.LockedConfirmationSkipsNothing` | apps/api/src/modules/orchestrator/services/orchestration-engine.service.ts:303-358 | Of engine calls under locks that lapse or not, and markReady, every confirmation went through every stage. |
| `OrphanRecovery.OrphanCaseRecoveryService.RecoverCandidate` | apps/worker/src/reliability/orphan-case-recovery.service.ts:27-64 | It proceeds exactly when no live lock is stored and the status is still the candidate's, leaves a lock it did not get alone, and leaves no lock of its own behind whether it was quick or late. |
| `OrphanRecovery.DefaultsExcludeEachOther` | apps/worker/src/reliability/orphan-case-recovery.service.ts:24-36 | Both created without a configuration, service and recovery lock the same key of every case: while the lock of either lives, the other one is refused. |
| `DraftLinks.ReorderExactly` | apps/api/src/modules/booking-cases/booking-cases.repository.ts:135-157 | For every payload the service accepts, the two loops commit if and only if it is clear: the shifted positions fit the integer column, none is held by a row shifted later, and no requested position is a later item's shifted one. Then every link has its requested position. |
| `DraftLinks.SmallPositionsAreClear` | apps/api/src/modules/booking-cases/booking-cases.repository.ts:135-157 | While all current and requested positions are at most 10000 every accepted payload is clear. |
| `DraftLinks.LargePositionsCollide` | apps/api/src/modules/booking-cases/booking-cases.repository.ts:135-157 | Beyond that an accepted payload can fail on the uniqueness constraint. |
| `DraftLinks.LoopRuns` | apps/api/src/modules/booking-cases/booking-cases.repository.ts:141-156 | One loop runs through exactly when each single update is let through, and then has moved exactly its items. |
| `DraftLinks.EveryLinkCovered` | apps/api/src/modules/booking-cases/booking-cases.service.ts:272-306 | The length, membership and duplicate checks imply, by counting, that the payload names every link. |
| `DraftLinks.ReorderedIsThePayload` | apps/api/src/modules/booking-cases/booking-cases.repository.ts:135-157 | A committed reorder keeps the draft in order and changes nothing but the positions, which are the payload's. |
| `DraftLinks.DraftsStayInOrder` | apps/api/src/modules/booking-cases/booking-cases.service.ts:192-337 | Every sequence of add, set-primary, reorder and remove, with refused ones among them, keeps applicants and positions distinct, positions from 1 to the column's maximum, and at most one primary. |
| `DraftLinks.ApplyKeeps` | apps/api/src/modules/booking-cases/booking-cases.service.ts:192-337 | Each of the four operations keeps that. |
| `DraftLinks.RemoveKeeps` | apps/api/src/modules/booking-cases/booking-cases.repository.ts:159-163 | Removal leaves exactly the other rows. |
| `DraftLinks.AddExactly` | apps/api/src/modules/booking-cases/booking-cases.service.ts:192-242 | Exactly when an add is refused and with which error; otherwise there is one more row, the last one, with the id, applicant and primary flag asked for and the position asked for or one more than every other, and the other rows are as before, apart from being primary if the new one is. |
| `DraftLinks.RemoveExactly` | apps/api/src/modules/booking-cases/booking-cases.repository.ts:159-163 | A removal takes out the one row and keeps the order of the others. |
| `DraftLinks.AcceptedExactly` | apps/api/src/modules/booking-cases/booking-cases.service.ts:272-306 | A payload is accepted if and only if it has as many items as there are links, names every link and asks for different positions from one on. |
| `DraftLinks.RefusalsExactly` | apps/api/src/modules/booking-cases/booking-cases.service.ts:244-337 | Only drafts are edited and a refused call changes nothing; exactly when setting the primary applicant, removing and reordering are refused, and with which error. |
| `DraftLinks.PrimaryIsUnique` | apps/api/src/modules/booking-cases/booking-cases.repository.ts:119-133 | Afterwards the chosen link is primary and no other is, and nothing else changed. |
| `DraftLinks.DraftCase.AddApplicant` | apps/api/src/modules/booking-cases/booking-cases.service.ts:192-242 | The rows and the error of every add, for every input, are the specification's; when it succeeds there is the one new row, as asked for, and when it fails nothing has changed. |
| `DraftLinks.DraftCase.SetPrimaryApplicant` | apps/api/src/modules/booking-cases/booking-cases.service.ts:244-263 | Likewise for setting the primary applicant, by unsetting and setting. |
| `DraftLinks.DraftCase.CheckPayload` | apps/api/src/modules/booking-cases/booking-cases.service.ts:272-306 | The item-by-item loop accepts exactly the payloads of the right length with known, distinct ids and distinct positive positions. |
| `DraftLinks.DraftCase.UpdateLoop` | apps/api/src/modules/booking-cases/booking-cases.repository.ts:141-156 | The loop of single updates computes the specification's rows or is refused. |
| `DraftLinks.DraftCase.ReorderApplicants` | apps/api/src/modules/booking-cases/booking-cases.service.ts:265-316 | The service's reorder as a whole; a refused transaction leaves the rows as they were. |
| `DraftLinks.DraftCase.RemoveApplicant` | apps/api/src/modules/booking-cases/booking-cases.service.ts:318-337 | Likewise for removal. |
| `CaseReadiness.SortAndCompare` | apps/api/src/modules/booking-cases/case-readiness.service.ts:60-71 | Sorting and comparing with 1, 2, … accepts exactly the permutations of 1..N. |
| `CaseReadiness.AppendingKeepsContiguous` | apps/api/src/modules/booking-cases/booking-cases.service.ts:192-242 | Adding applicants without an explicit position keeps the positions 1..N. |
| `CaseReadiness.CountingPrimaries` | apps/api/src/modules/booking-cases/case-readiness.service.ts:43-58 | Counting the primaries tells none, one and several apart. |
| `CaseReadiness.CheckPositions` | apps/api/src/modules/booking-cases/case-readiness.service.ts:60-71 | The loop accepts exactly positions 1..N and otherwise reports the first departure from them. |
| `CaseReadiness.CheckRecords` | apps/api/src/modules/booking-cases/case-readiness.service.ts:73-93 | The two loops over records: the first missing record is reported before any passport, and the first failing passport only if all records exist. |
| `CaseReadiness.ValidateCaseReadiness` | apps/api/src/modules/booking-cases/case-readiness.service.ts:18-137 | A case passes if and only if rules 2 to 10 hold; otherwise the error is of the first rule that does not, and says what is wrong. |
| `CaseReadiness.ReadyExactly` | apps/api/src/modules/booking-cases/case-readiness.service.ts:18-137 | All rules together hold if and only if: an enabled route, a draft with one primary applicant, positions 1..N, every record there with a passport that satisfies the route, its minimum and maximum kept, and no split it does not allow. |
| `CaseReadiness.BookingCasesService.MarkReady` | apps/api/src/modules/booking-cases/booking-cases.service.ts:339-362 | Run alone it writes READY exactly for a draft that meets the rules, changes nothing else, and keeps a history in order although the write is unguarded. |
| `RateLimit.AdmitsExactly` | apps/api/src/common/guards/rate-limit.guard.ts:30-59 | By any clock, a request is accepted if and only if fewer acceptances of its address than the limit lie in its window and were not left outside the window of a request in between. |
| `RateLimit.PrunedDecidesAsFull` | apps/api/src/common/guards/rate-limit.guard.ts:30-59 | With a clock that does not go back, the pruned buckets decide every request as a guard with the full log would. |
| `RateLimit.PruningMattersExactly` | apps/api/src/common/guards/rate-limit.guard.ts:43-59 | By any clock, pruning changes a decision if and only if the times left behind make the difference between fewer than the limit and not. |
| `RateLimit.NoWindowOverfull` | apps/api/src/common/guards/rate-limit.guard.ts:30-59 | With a clock that does not go back, no window of the configured width holds more requests of one address that the guard accepted than the limit. |
| `RateLimit.BackwardClockOverfills` | apps/api/src/common/guards/rate-limit.guard.ts:33 | When the clock goes back the bound fails: three acceptances in a window with limit two. |
| `RateLimit.RateLimitGuard.CanActivate` | apps/api/src/common/guards/rate-limit.guard.ts:30-59 | The filtering loop and the two writes compute the specification's buckets and decision. |
| `IdempotencyKeys.RejectsExactlyRepeats` | apps/api/src/common/guards/idempotency.guard.ts:27-47 | With a clock that does not go back, a request is turned away if and only if its key was accepted at most 60 s before. |
| `IdempotencyKeys.RejectsExactly` | apps/api/src/common/guards/idempotency.guard.ts:27-55 | By any clock, a request is turned away if and only if its key was accepted before and no request with a key since then, this one included, was more than 60 s later. |
| `IdempotencyKeys.BackwardClockForgets` | apps/api/src/common/guards/idempotency.guard.ts:33-34 | When the clock goes back a key is accepted twice within 10 ms. |
| `IdempotencyKeys.ExactlyAMinute` | apps/api/src/common/guards/idempotency.guard.ts:20-47 | A key is turned away up to 60000 ms after it was accepted and not later; a request without a key or with an empty one passes and leaves no trace. |
| `IdempotencyKeys.AcceptancesAreApart` | apps/api/src/common/guards/idempotency.guard.ts:27-55 | Two acceptances of one key are more than 60 s apart. |
| `IdempotencyKeys.IdempotencyGuard.CanActivate` | apps/api/src/common/guards/idempotency.guard.ts:27-47 | The guard's new map and decision. |
| `IdempotencyKeys.IdempotencyGuard.Evict` | apps/api/src/common/guards/idempotency.guard.ts:49-55 | The eviction loop, in any order, keeps exactly the keys that are at most 60 s old. |
| `ProviderLimiter.SessionsAreConserved` | apps/worker/src/reliability/provider-rate-limiter.service.ts:24-72 | If acquire follows an allowed canExecute and only holders release, the global count is the number of sessions held, each account's count its share, and both limits hold, at every moment. |
| `ProviderLimiter.DefaultsExactly` | apps/worker/src/reliability/provider-rate-limiter.service.ts:15-50 | Without a configuration an account may start if and only if it holds no session, fewer than five are held and 5000 ms have passed since its last start. |
| `ProviderLimiter.ReleaseConservesExactly` | apps/worker/src/reliability/provider-rate-limiter.service.ts:60-72 | A release keeps the counts right if and only if its account holds a session or nobody does. |
| `ProviderLimiter.StrayReleaseBreaksTheLimit` | apps/worker/src/reliability/provider-rate-limiter.service.ts:60-72 | A release by an account that holds nothing lets one session more than the global limit in. |
| `ProviderLimiter.StartsAreSpaced` | apps/worker/src/reliability/provider-rate-limiter.service.ts:24-58 | Successive sessions of one account start at least the minimum interval apart. |
| `ProviderLimiter.ProviderRateLimiter.CanExecute` | apps/worker/src/reliability/provider-rate-limiter.service.ts:24-50 | For whatever holders the counts are right for: allowed if and only if there are fewer of them than the global limit, fewer of the account than its limit, and the interval has passed. |
| `ProviderLimiter.ProviderRateLimiter.Acquire` | apps/worker/src/reliability/provider-rate-limiter.service.ts:52-58 | Where it was allowed, the counts are right for one more holder and both limits still hold, and nothing may start for the account within the interval. |
| `ProviderLimiter.ProviderRateLimiter.Release` | apps/worker/src/reliability/provider-rate-limiter.service.ts:60-72 | The counts stay right for one holder less if and only if the account holds a session or nobody does. |
| `RetryPolicy.Execute` | apps/worker/src/reliability/retry-policy.ts:96-132 | The loop's outcome, number of invocations and delays are those of the recursive run, for every behaviour, jitter and configuration. |
| `RetryPolicy.StopsAtFirstFinal` | apps/worker/src/reliability/retry-policy.ts:105-130 | A run ends with the first attempt that returns, is not retryable or is the last one, and every attempt before it was retryable. |
| `RetryPolicy.RepeatsExactly` | apps/worker/src/reliability/retry-policy.ts:82-115 | A run goes past an attempt if and only if that failed with a transient error, its class is none of the four that cannot be undone, and an attempt is left. |
| `RetryPolicy.InvocationsAreBounded` | apps/worker/src/reliability/retry-policy.ts:96-132 | The throw after the loop is reached if and only if fewer than one attempt is configured; otherwise the operation is invoked between once and maxAttempts times. |
| `RetryPolicy.IrreversibleRunsOnce` | apps/worker/src/reliability/retry-policy.ts:22-71 | An irreversible class is invoked exactly once under every custom configuration with at least one attempt. |
| `RetryPolicy.BackoffGrows` | apps/worker/src/reliability/retry-policy.ts:74-80 | The delay before the next attempt is at least this one's, for any two possible jitters. |
| `RetryPolicy.BackoffDoubles` | apps/worker/src/reliability/retry-policy.ts:74-80 | The delay starts from the base delay and doubles, plus jitter, up to the maximum. |
| `RetryPolicy.DefaultDelays` | apps/worker/src/reliability/retry-policy.ts:22-71 | The delays between the attempts each class is configured for, without jitter. |
| `RetryPolicy.DefaultMaximum` | apps/worker/src/reliability/retry-policy.ts:22-80 | Whatever number of attempts is asked for, the delay of each class stops growing at its own maximum. |
| `RetryPolicy.DelaysGrowWithinMaximum` | apps/worker/src/reliability/retry-policy.ts:74-130 | For any jitters the delays of a run never shrink and never exceed the maximum. |
| `AvailabilityMatching.MatchingExactly` | vfs-adapter/src/mapping/availability.mapper.ts:37-110 | No slot exactly for no buckets, a mismatch exactly when the group exceeds every bucket, with the largest capacity reported, and otherwise a slot of the first covering bucket or, without one, of the first large enough: field by field its date, its time or 09:00, its capacity, its own id or one made of the date without dashes, and the caller's centre or else its own; the later no-slot branch is unreachable. |
| `AvailabilityMatching.MaxCapacityIsMaximum` | vfs-adapter/src/mapping/availability.mapper.ts:50 | The maximum is attained and an upper bound. |
| `AvailabilityMatching.FindCoveringFinds` | vfs-adapter/src/mapping/availability.mapper.ts:63-65 | The first covering bucket is found if there is one. |
| `Envelope.EnvelopeRoundTrip` | packages/crypto/src/encryption.service.ts:60-133 | For every well-formed text that is not empty, key and vector of the right lengths, decrypting the encryption gives the text back, through base64url, joining and splitting. |
| `Envelope.EncryptsExactly` | packages/crypto/src/encryption.service.ts:60-84 | An envelope is v1, the vector, the tag and the ciphertext, joined by dots in this order; refused exactly for an empty text or a key that has not 32 bytes. |
| `Envelope.DecryptsExactly` | packages/crypto/src/encryption.service.ts:88-133 | For any four parts, exactly when they open, with the lengths and the version spelled out, and otherwise which error is raised. |
| `Envelope.OtherPayloadsAreRefused` | packages/crypto/src/encryption.service.ts:95-105 | A payload with another number of dots, the empty one included, is refused for its format. |
| `Envelope.Base64RoundTrip` | packages/crypto/src/encryption.service.ts:60-133 | Unpadded base64url (section 5 of RFC 4648) decodes to the encoded bytes, contains no dot and is empty only for no bytes. |
| `Envelope.CharsAreTheAlphabet` | packages/crypto/src/encryption.service.ts:82-84 | The 64 characters, in the order of section 5 of RFC 4648. |
| `Envelope.DecoderReadsExactly` | packages/crypto/src/encryption.service.ts:107-109 | Which characters the decoder takes for which digit, and that it skips the others. |
| `Envelope.SextetsAreDigits` | packages/crypto/src/encryption.service.ts:82-84 | Three bytes are written as one number of four digits to the base 64, most significant first; the last one or two bytes are padded with zero bits. |
| `Envelope.SplitUndoesJoin` | packages/crypto/src/encryption.service.ts:84-96 | Splitting recovers dot-free parts that were joined. |
| `Envelope.DecryptsOnlyEnvelopes` | packages/crypto/src/encryption.service.ts:88-133 | A payload that decrypts is four parts joined by dots, the first the version, whose vector and tag have their lengths and which the cipher opened. |

## Left out

- Case deletion, which removes the history: runs of the protocol do not contain it.
- The actor of a history entry says which of the three writers wrote it (markReady, the
  transition service, a worker repository), not what the actor column holds.
- The latest history entry is the one appended last; ties of creation times are not modelled.
- Each transaction and each Redis command or script is one atomic step; a transaction that fails
  as a whole is one that did not happen.
- SlotHandover.FoundSlotIsHandedOverExactly: is about executeBooking. The booking job takes its slot
  from the job's payload, which is not part of this model, nor is the slot in the metadata of its
  BOOKING entry, which no program reads.
- The session row is an input of the session-resume job and may hold any target. In the source only
  the availability job's challenge at the login writes one, after its compare-and-set and whether or
  not that was refused; what is proved for any row holds for those.
- ResumeFidelity.ResumesInTurn: its freedom from the mismatch error needs turns; a worker that acts
  between the two reads of executeResume can cause the error.
- Confirmations.GaplessExactly: is about gaps at any moment; a gap that a leap opened can be closed
  when the case goes through the missing stages later.
- Any other caller of the transition service is a program of the protocol as well, `Direct`, so the
  theorems hold for callers to come; the repository has none, and no reachable run uses it.
- ProtocolTheorems.HistoryBalances: needs runs without a race on READY; ChainExactlyWithoutRace
  says that this is the exact condition for the chain it rests on.
- ProtocolTheorems.EveryRunIsBounded: has the same condition, since markReady raced against itself
  can append without end.
- EngineCalls.OrchestrationEngine.ExecuteBooking: is sequential, as nothing else acts meanwhile;
  the interleaved behaviour of the same calls is that of Protocol.
- WorkerJobs.WorkerProcess.ProcessBooking: leaves out session rows, payment handoffs, queue
  additions and activity logs, which do not touch the status.
- Contexts, applicant inputs and account look-ups of the engine and the workers; where they throw,
  a call ends before its next write, as it does when the adapter throws.
- The PREPARE_LOGIN job and its observer, and the recovery of sessions at start-up: they write
  session rows only.
- JobRecoveryService.reconcileOrphan writes notifications and no status; OrphanRecovery has its
  decision and Protocol has no program for it.
- LockRuns.BodiesDoNotOverlap: states when renewals reach Redis, not that the event loop fires
  timers on time; timers fire at any moment, and being late is what the condition excludes.
- CaseLockService.withCaseLock takes an asynchronous function and is modelled by the events of
  LockRuns; acquiring and starting the heartbeat are one event, since no await lies between. A
  failed beat whose callback has not run is kept once per process and token.
- LockRuns.LostAnswerLeavesALock: a SET that does not reach Redis changes nothing and is no event.
- There is one Redis clock, and the random part of a token is taken to be unique.
- OrphanRecovery.OrphanCaseRecoveryService.RecoverCandidate: the status is the same at both of its
  reads; other writers in between are covered by the lock theorems and Protocol.
- DraftLinks.DraftCase.ReorderApplicants: calls on one draft run one after another; the reads before
  a transaction are not repeated inside it in the source, and concurrent edits are not modelled:
  neither two adds at once that both name a primary, nor an edit between markReady's validation and
  its write.
- CaseReadiness.ValidateCaseReadiness: whether a passport satisfies the route is an input, one
  verdict per applicant, and the route's configuration is taken as parsed; the library sort is an
  insertion sort here.
- RateLimit.NoWindowOverfull: needs a clock that does not go back; AdmitsExactly does not.
- The clock of the limiters is an input, and addresses are strings as the request gives them.
- ProviderLimiter.StartsAreSpaced: is about tries, canExecute followed by acquire, without another
  call in between, which is how one process uses it.
- RetryPolicy.DelaysGrowWithinMaximum: takes jitter as an integer from zero to below three tenths of
  the base delay, and powers of two as integers; the rounding of floating point beyond 2^53 and
  infinite values are not modelled. The error classifier's verdict is an input.
- AvailabilityMatching.MatchingExactly: starts from parsed buckets; the regular expression that parses
  page text is not modelled.
- Envelope.EnvelopeRoundTrip: the cipher is an abstract pair of which only inversion, the length of
  the tag and a non-empty ciphertext are assumed; UTF-8 is inside it, hence the well-formed texts.
  Keys are given as bytes. The decoder skips characters outside both alphabets and does not stop at
  padding.
- Browser automation, page detection, the web application, controllers, formatting, metrics, logging,
  health checks, the live monitor and its viewer counts, error classification, route profiles,
  pagination and masking.
