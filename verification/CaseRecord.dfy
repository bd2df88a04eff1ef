// One booking case row together with its append-only state history, and the three
// ways the system writes it: the API's compare-and-set, which raises on a stale
// status, the workers' compare-and-set, which reports a boolean, and the
// unconditional write of READY.
module CaseRecord {
  import opened Wrappers
  import opened CaseStatus

  // Who wrote a history entry.
  datatype Actor = User | System | Worker

  // What an entry's metadata says of resuming and of a slot that was found: the engine records
  // a slot as slotCandidate, which is what it reads back, and the availability worker as slot.
  datatype Meta = Meta(resumeTo: Option<Status>, slotCandidate: Option<string>, slot: Option<string> := None)

  const NO_META := Meta(None, None)

  datatype Entry = Entry(from: Status, to: Status, actor: Actor, meta: Meta)

  datatype Case = Case(status: Status, history: seq<Entry>)

  // A case is created as DRAFT and without history.
  const NEW_CASE := Case(Draft, [])

  // The row and the history entry change together, or not at all.
  function CompareAndSet(c: Case, e: Entry): (Case, bool) {
    if c.status == e.from then (Case(e.to, c.history + [e]), true) else (c, false)
  }

  const READY_ENTRY := Entry(Draft, Ready, User, NO_META)

  // The write of READY does not look at the stored status.
  function WriteReady(c: Case): Case {
    Case(Ready, c.history + [READY_ENTRY])
  }

  function LatestMeta(h: seq<Entry>): Meta {
    if h == [] then NO_META else h[|h| - 1].meta
  }

  // The slot that was found, under either name.
  function FoundIn(meta: Meta): Option<string> {
    if meta.slotCandidate.Some? then meta.slotCandidate else meta.slot
  }

  datatype ServiceError =
    | StaleState(expected: Status, actual: Status)
    | IllegalTransition(from: Status, to: Status)
    | ResumeMismatch(recorded: Status, requested: Status)

  // A request to the transition service.
  datatype Request = Request(to: Status, expected: Option<Status>, meta: Meta)

  // The checks made on the loaded status, before the history is consulted.
  function LoadCheck(r: Request, current: Status): Option<ServiceError> {
    if r.expected.Some? && r.expected.value != current then
      Some(StaleState(r.expected.value, current))
    else if !CanTransition(current, r.to) then
      Some(IllegalTransition(current, r.to))
    else
      None
  }

  predicate NeedsResumeCheck(r: Request, current: Status) {
    current == HumanVerification && r.to != Failed && r.to != Cancelled
  }

  // The resume check against the metadata of the latest history entry.
  function ResumeCheck(r: Request, latest: Meta): Option<ServiceError> {
    if latest.resumeTo.Some? && r.to != latest.resumeTo.value then
      Some(ResumeMismatch(latest.resumeTo.value, r.to))
    else
      None
  }

  function RequestEntry(r: Request, current: Status): Entry {
    Entry(current, r.to, System, r.meta)
  }

  // The transition service when nothing else touches the case meanwhile.
  function Transact(c: Case, r: Request): (Case, Option<ServiceError>) {
    var loaded := LoadCheck(r, c.status);
    if loaded.Some? then (c, loaded)
    else if NeedsResumeCheck(r, c.status) && ResumeCheck(r, LatestMeta(c.history)).Some? then
      (c, ResumeCheck(r, LatestMeta(c.history)))
    else
      (CompareAndSet(c, RequestEntry(r, c.status)).0, None)
  }

  // The two writes of the row. The first lands exactly on the status it expects, and says so; the
  // second lands on any, and its entry says DRAFT whatever the status was.
  lemma WritesExactly(c: Case, e: Entry)
    ensures CompareAndSet(c, e) == if c.status == e.from then (Case(e.to, c.history + [e]), true) else (c, false)
    ensures WriteReady(c) == Case(Ready, c.history + [Entry(Draft, Ready, User, Meta(None, None, None))])
  {
  }

  // A request is granted exactly when it expects the stored status or none, the table has the
  // edge, and a checkpoint is left to the target recorded on entry, if there is one, or for FAILED
  // or CANCELLED; then the status is the requested one and the entry says so. Otherwise nothing
  // changes and the error says what is in the way.
  lemma TransactExactly(c: Case, r: Request)
    ensures var recorded := if c.history == [] then None else c.history[|c.history| - 1].meta.resumeTo;
            var mismatch := c.status == HumanVerification && r.to != Failed && r.to != Cancelled
                            && recorded.Some? && recorded.value != r.to;
            Transact(c, r) ==
            if r.expected != None && r.expected != Some(c.status) then (c, Some(StaleState(r.expected.value, c.status)))
            else if !CanTransition(c.status, r.to) then (c, Some(IllegalTransition(c.status, r.to)))
            else if mismatch then (c, Some(ResumeMismatch(recorded.value, r.to)))
            else (Case(r.to, c.history + [Entry(c.status, r.to, System, r.meta)]), None)
  {
  }

  // The stored row, updated in place by the repositories.
  class CaseRow {
    var status: Status
    var history: seq<Entry>

    function Value(): Case
      reads this
    {
      Case(status, history)
    }

    constructor ()
      ensures Value() == NEW_CASE
    {
      status, history := Draft, [];
    }

    // The API's repository: a stale status aborts the transaction with an error.
    method AtomicStatusTransition(e: Entry) returns (r: Result<Case, ServiceError>)
      modifies this
      ensures Value() == CompareAndSet(old(Value()), e).0
      ensures r == if old(status) == e.from then Ok(Value()) else Err(StaleState(e.from, old(status)))
    {
      if status != e.from {
        return Err(StaleState(e.from, status));
      }
      status := e.to;
      history := history + [e];
      r := Ok(Value());
    }

    // The workers' repository: a stale status is reported as false.
    method AtomicConditionalTransition(e: Entry) returns (written: bool)
      modifies this
      ensures (Value(), written) == CompareAndSet(old(Value()), e)
    {
      if status != e.from {
        return false;
      }
      status := e.to;
      history := history + [e];
      written := true;
    }

    // It amounts to the guarded write exactly when the stored status is DRAFT.
    method TransitionToReady()
      modifies this
      ensures Value() == WriteReady(old(Value()))
      ensures Value() == CompareAndSet(old(Value()), READY_ENTRY).0 <==> old(status) == Draft
    {
      status := Ready;
      history := history + [READY_ENTRY];
    }

    method GetLatestStateHistory() returns (latest: Option<Entry>)
      ensures latest.None? <==> history == []
      ensures latest.Some? ==> exists earlier :: history == earlier + [latest.value]
      ensures latest.Some? ==> latest.value.meta == LatestMeta(history)
    {
      latest := if history == [] then None else Some(history[|history| - 1]);
      assert latest.Some? ==> history == history[..|history| - 1] + [latest.value];
    }

    // CaseTransitionService.transition, run without interference.
    method Transition(r: Request) returns (result: Result<Case, ServiceError>)
      modifies this
      ensures Value() == Transact(old(Value()), r).0
      ensures result == match Transact(old(Value()), r).1
                        case Some(error) => Err(error)
                        case None => Ok(Value())
    {
      var current := status;
      if r.expected.Some? && r.expected.value != current {
        return Err(StaleState(r.expected.value, current));
      }
      if !CanTransition(current, r.to) {
        return Err(IllegalTransition(current, r.to));
      }
      if current == HumanVerification && r.to != Failed && r.to != Cancelled {
        var latest := GetLatestStateHistory();
        var recorded := if latest.None? then None else latest.value.meta.resumeTo;
        if recorded.Some? && r.to != recorded.value {
          return Err(ResumeMismatch(recorded.value, r.to));
        }
      }
      result := AtomicStatusTransition(RequestEntry(r, current));
    }
  }
}
