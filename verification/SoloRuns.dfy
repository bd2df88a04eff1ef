// One program alone on a case: its operations one after another, without interference. This
// ties the sequential calls of the engine to the interleaved protocol.
module SoloRuns {
  import opened Wrappers
  import opened CaseStatus
  import opened CaseRecord
  import opened Programs
  import opened Protocol

  // What the surroundings answer; no program asks the adapter the same thing twice.
  datatype Script = Script(answer: Call -> Answer, session: Session, remote: RemoteState, rulesHold: bool)

  function InputAt(proc: Proc, script: Script): Input {
    Input(if proc.At? && OperationAt(proc.point).Ask? then script.answer(OperationAt(proc.point).call) else Throws,
          script.session, script.remote, script.rulesHold)
  }

  // Where the program and the case are after n more operations.
  function Alone(c: Case, proc: Proc, script: Script, n: nat): (Case, Proc)
    decreases n
  {
    if n == 0 then (c, proc)
    else
      var (c', proc') := Advance(c, proc, InputAt(proc, script));
      Alone(c', proc', script, n - 1)
  }

  // The case after these entries were appended.
  function Appended(c: Case, es: seq<Entry>): Case {
    if es == [] then c else Case(es[|es| - 1].to, c.history + es)
  }

  lemma AppendedOn(c: Case, e: Entry, es: seq<Entry>)
    ensures Appended(Appended(c, [e]), es) == Appended(c, [e] + es)
  {
    assert c.history + [e] + es == c.history + ([e] + es);
  }

  // Run alone from p, the program appends these entries and has stopped after n operations.
  ghost predicate Follows(c: Case, p: Point, script: Script, n: nat, es: seq<Entry>) {
    var (c', proc) := Alone(c, At(p), script, n);
    c' == Appended(c, es) && (proc == At(Halt) || proc.Refused?)
  }

  lemma {:induction false} StaysPut(c: Case, proc: Proc, script: Script, n: nat)
    requires proc == At(Halt) || proc.Refused?
    ensures Alone(c, proc, script, n) == (c, proc)
  {
    if n == 0 {
    } else {
      StaysPut(c, proc, script, n - 1);
    }
  }

  lemma Halts(c: Case, script: Script, n: nat)
    ensures Follows(c, Halt, script, n, [])
  {
    StaysPut(c, At(Halt), script, n);
  }

  // The transition service turns the request down.
  lemma Refuses(c: Case, p: Point, r: Request, script: Script, n: nat)
    requires n > 0 && OperationAt(p) == Transition(r) && LoadCheck(r, c.status).Some?
    ensures Follows(c, p, script, n, [])
  {
    StaysPut(c, Refused(p, LoadCheck(r, c.status).value), script, n - 1);
  }

  // An operation that does not write.
  lemma Reads(c: Case, p: Point, q: Point, script: Script, n: nat, es: seq<Entry>)
    requires var op := OperationAt(p);
             !op.Stop? && !op.Transition? && !op.Conditional? && !op.MarkReady?
             && After(p, ReplyTo(c, op, InputAt(At(p), script))) == q
    requires n > 0 && Follows(c, q, script, n - 1, es)
    ensures Follows(c, p, script, n, es)
  {
  }

  lemma Asks(c: Case, p: Point, call: Call, q: Point, script: Script, n: nat, es: seq<Entry>)
    requires OperationAt(p) == Ask(call) && After(p, Answered(script.answer(call))) == q
    requires n > 0 && Follows(c, q, script, n - 1, es)
    ensures Follows(c, p, script, n, es)
  {
    Reads(c, p, q, script, n, es);
  }

  lemma AsksAndHalts(c: Case, p: Point, call: Call, script: Script, n: nat)
    requires n > 0 && OperationAt(p) == Ask(call) && After(p, Answered(script.answer(call))) == Halt
    ensures Follows(c, p, script, n, [])
  {
    Halts(c, script, n - 1);
    Asks(c, p, call, Halt, script, n, []);
  }

  // The last operation of a transition.
  lemma Commits(c: Case, p: Point, r: Request, readAt: nat, script: Script, n: nat)
    requires n > 0
    ensures Alone(c, Committing(p, r, c.status, readAt), script, n) ==
            Alone(Appended(c, [RequestEntry(r, c.status)]), At(After(p, Moved)), script, n - 1)
  {
  }

  // A request to the transition service that is granted: load, then compare-and-set.
  lemma Moves(c: Case, p: Point, r: Request, q: Point, script: Script, n: nat, es: seq<Entry>)
    requires OperationAt(p) == Transition(r) && After(p, Moved) == q
    requires r.expected == Some(c.status) && c.status != HumanVerification && CanTransition(c.status, r.to)
    requires n > 1 && Follows(Appended(c, [RequestEntry(r, c.status)]), q, script, n - 2, es)
    ensures Follows(c, p, script, n, [RequestEntry(r, c.status)] + es)
  {
    var e := RequestEntry(r, c.status);
    assert Advance(c, At(p), InputAt(At(p), script)) == (c, Committing(p, r, c.status, |c.history|));
    Commits(c, p, r, |c.history|, script, n - 1);
    AppendedOn(c, e, es);
  }

  lemma MovesAndHalts(c: Case, p: Point, r: Request, script: Script, n: nat)
    requires OperationAt(p) == Transition(r) && After(p, Moved) == Halt && n > 1
    requires r.expected == Some(c.status) && c.status != HumanVerification && CanTransition(c.status, r.to)
    ensures Follows(c, p, script, n, [RequestEntry(r, c.status)])
  {
    var e := RequestEntry(r, c.status);
    Halts(Appended(c, [e]), script, n - 2);
    Moves(c, p, r, Halt, script, n, []);
    assert [e] + [] == [e];
  }
}
