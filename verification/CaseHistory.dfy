// What a state history tells about the case it belongs to.
module CaseHistory {
  import opened Wrappers
  import opened CaseStatus
  import opened CaseRecord

  // ---- Chains ---------------------------------------------------------------

  function LastStatus(h: seq<Entry>): Status {
    if h == [] then Draft else h[|h| - 1].to
  }

  // The history starts from DRAFT and each entry continues where the previous one ended.
  ghost predicate Chain(h: seq<Entry>) {
    && (h != [] ==> h[0].from == Draft)
    && forall i, j :: 0 <= i && j == i + 1 && j < |h| ==> h[j].from == h[i].to
  }

  ghost predicate Consistent(c: Case) {
    Chain(c.history) && c.status == LastStatus(c.history)
  }

  lemma ChainAppend(h: seq<Entry>, e: Entry)
    ensures Chain(h + [e]) <==> Chain(h) && e.from == LastStatus(h)
  {
    var g := h + [e];
    assert forall i :: 0 <= i < |h| ==> g[i] == h[i];
    if Chain(g) && h != [] {
      assert g[|h|].from == g[|h| - 1].to;
    }
  }

  // ---- Counting entries -------------------------------------------------------

  function Entries(h: seq<Entry>, s: Status): nat {
    if h == [] then 0
    else Entries(h[..|h| - 1], s) + if h[|h| - 1].to == s then 1 else 0
  }

  function Exits(h: seq<Entry>, s: Status): nat {
    if h == [] then 0
    else Exits(h[..|h| - 1], s) + if h[|h| - 1].from == s then 1 else 0
  }

  // Entries written by one kind of actor that move a case between two given statuses.
  function Crossings(h: seq<Entry>, from: Status, to: Status, who: Actor): nat {
    if h == [] then 0
    else
      var e := h[|h| - 1];
      Crossings(h[..|h| - 1], from, to, who) + if e.from == from && e.to == to && e.actor == who then 1 else 0
  }

  lemma CountAppend(h: seq<Entry>, e: Entry, s: Status)
    ensures Entries(h + [e], s) == Entries(h, s) + if e.to == s then 1 else 0
    ensures Exits(h + [e], s) == Exits(h, s) + if e.from == s then 1 else 0
  {
    assert (h + [e])[..|h|] == h;
  }

  lemma CrossingsAppend(h: seq<Entry>, e: Entry, from: Status, to: Status, who: Actor)
    ensures Crossings(h + [e], from, to, who)
         == Crossings(h, from, to, who) + if e.from == from && e.to == to && e.actor == who then 1 else 0
  {
    assert (h + [e])[..|h|] == h;
  }

  lemma {:induction false} CrossingsAreExits(h: seq<Entry>, from: Status, to: Status)
    ensures Crossings(h, from, to, User) + Crossings(h, from, to, System) + Crossings(h, from, to, Worker)
         <= Exits(h, from)
  {
    if h == [] {
    } else {
      CrossingsAreExits(h[..|h| - 1], from, to);
    }
  }

  // A case leaves every status exactly as often as it enters it, apart from the one it is
  // in now. DRAFT is entered once more than recorded, since a case is created there.
  lemma {:induction false} FlowBalance(h: seq<Entry>, s: Status)
    requires Chain(h)
    ensures Entries(h, s) + (if s == Draft then 1 else 0)
         == Exits(h, s) + (if s == LastStatus(h) then 1 else 0)
  {
    if h == [] {
    } else {
      var g, e := h[..|h| - 1], h[|h| - 1];
      assert h == g + [e];
      ChainAppend(g, e);
      FlowBalance(g, s);
    }
  }

  // ---- Length of a run --------------------------------------------------------

  function Stage(s: Status): nat {
    match s
    case Draft => 0
    case Ready => 1
    case Authenticating => 2
    case Monitoring => 3
    case WaitingQueue => 3
    case SlotFound => 4
    case Booking => 5
    case AddingApplicants => 6
    case AppointmentSelected => 7
    case PaymentRequired => 8
    case PaymentProcessing => 9
    case Confirmed => 10
    case Expired => 10
    case Failed => 10
    case Cancelled => 10
    case HumanVerification => 1
    case SlotLost => 1
  }

  ghost predicate Canonical(h: seq<Entry>) {
    && Chain(h)
    && forall e :: e in h ==> CanTransition(e.from, e.to)
  }

  // The route from DRAFT to CONFIRMED, with its two ways of waiting for a slot.
  predicate OnRoute(s: Status) {
    s !in {HumanVerification, SlotLost, Expired, Failed, Cancelled}
  }

  // The table read by target. Along the route a case moves one stage at a time. A challenge can
  // arise from signing in to the payment, except at a found slot, and is resumed where it could
  // arise; a slot can be lost until the applicants are added, and then a new one is looked for.
  // Slots, waiting and payments expire, whatever has begun can fail, and nothing but the end
  // cannot be cancelled.
  lemma TableByStage(from: Status, to: Status)
    ensures OnRoute(from) && OnRoute(to) ==> (CanTransition(from, to) <==> Stage(to) == Stage(from) + 1)
    ensures CanTransition(from, HumanVerification) <==> OnRoute(from) && 2 <= Stage(from) <= 9 && from != SlotFound
    ensures OnRoute(to) ==> (CanTransition(HumanVerification, to) <==> CanTransition(to, HumanVerification))
    ensures CanTransition(from, SlotLost) <==> OnRoute(from) && 4 <= Stage(from) <= 6
    ensures OnRoute(to) ==> (CanTransition(SlotLost, to) <==> Stage(to) == 3)
    ensures CanTransition(from, Expired) <==> from == WaitingQueue || from == SlotFound || (OnRoute(from) && 7 <= Stage(from) <= 9)
    ensures CanTransition(from, Failed) <==> !IsTerminal(from) && from != Draft && from != Ready
    ensures CanTransition(from, Cancelled) <==> !IsTerminal(from)
    ensures IsTerminal(from) <==> from in {Confirmed, Expired, Failed, Cancelled}
  {
  }

  // The two statuses from which a case can move back.
  predicate Setback(s: Status) {
    s == HumanVerification || s == SlotLost
  }

  // Visits to them.
  function Setbacks(h: seq<Entry>): nat {
    Entries(h, HumanVerification) + Entries(h, SlotLost)
  }

  lemma CanonicalPrefix(h: seq<Entry>)
    requires h != [] && Canonical(h)
    ensures var g := h[..|h| - 1]; var e := h[|h| - 1];
            && h == g + [e] && Canonical(g) && e.from == LastStatus(g) && CanTransition(e.from, e.to)
            && Setbacks(h) == Setbacks(g) + if Setback(e.to) then 1 else 0
  {
    var g, e := h[..|h| - 1], h[|h| - 1];
    assert h == g + [e];
    ChainAppend(g, e);
    assert forall x :: x in g ==> x in h;
    assert e in h;
  }

  lemma EdgeRaisesStage(e: Entry)
    requires CanTransition(e.from, e.to)
    ensures Stage(e.from) + 1 <= Stage(e.to) + if Setback(e.to) then 9 else 0
  {
  }

  // Away from the two setback statuses every transition strictly raises the stage, so a
  // canonical run with v setbacks has at most 9v + 10 transitions.
  lemma {:induction false} RunLengthBound(h: seq<Entry>)
    requires Canonical(h)
    ensures |h| <= 9 * Setbacks(h) + Stage(LastStatus(h)) <= 9 * Setbacks(h) + 10
  {
    if h == [] {
    } else {
      CanonicalPrefix(h);
      RunLengthBound(h[..|h| - 1]);
      EdgeRaisesStage(h[|h| - 1]);
    }
  }

  // ---- The bound is attained --------------------------------------------------

  function Push(h: seq<Entry>, to: Status): seq<Entry> {
    h + [Entry(LastStatus(h), to, System, NO_META)]
  }

  function Walk(h: seq<Entry>, route: seq<Status>): seq<Entry>
    decreases |route|
  {
    if route == [] then h else Walk(Push(h, route[0]), route[1..])
  }

  function Lap(h: seq<Entry>, via: Status, route: seq<Status>): seq<Entry> {
    Walk(Push(h, via), route)
  }

  lemma PushStep(h: seq<Entry>, to: Status)
    requires Canonical(h) && CanTransition(LastStatus(h), to)
    ensures Canonical(Push(h, to)) && LastStatus(Push(h, to)) == to
    ensures |Push(h, to)| == |h| + 1
    ensures Setbacks(Push(h, to)) == Setbacks(h) + if Setback(to) then 1 else 0
  {
    var e := Entry(LastStatus(h), to, System, NO_META);
    ChainAppend(h, e);
    CountAppend(h, e, HumanVerification);
    CountAppend(h, e, SlotLost);
  }

  ghost predicate SmoothRoute(from: Status, route: seq<Status>) {
    && (route != [] ==> CanTransition(from, route[0]))
    && (forall i :: 0 < i < |route| ==> CanTransition(route[i - 1], route[i]))
    && (forall i :: 0 <= i < |route| ==> !Setback(route[i]))
  }

  lemma {:induction false} WalkSteps(h: seq<Entry>, route: seq<Status>)
    requires Canonical(h) && route != [] && SmoothRoute(LastStatus(h), route)
    ensures var g := Walk(h, route);
            Canonical(g) && LastStatus(g) == route[|route| - 1] && |g| == |h| + |route| && Setbacks(g) == Setbacks(h)
    decreases |route|
  {
    PushStep(h, route[0]);
    if |route| == 1 {
    } else {
      var rest := route[1..];
      assert forall i :: 0 < i < |rest| ==> rest[i - 1] == route[i] && rest[i] == route[i + 1];
      WalkSteps(Push(h, route[0]), rest);
    }
  }

  lemma LapSteps(h: seq<Entry>, via: Status, route: seq<Status>)
    requires Canonical(h) && CanTransition(LastStatus(h), via) && route != [] && SmoothRoute(via, route)
    ensures var g := Lap(h, via, route);
            && Canonical(g) && LastStatus(g) == route[|route| - 1] && |g| == |h| + 1 + |route|
            && Setbacks(g) == Setbacks(h) + if Setback(via) then 1 else 0
  {
    PushStep(h, via);
    WalkSteps(Push(h, via), route);
  }

  lemma FirstLap(route: seq<Status>) returns (g: seq<Entry>)
    requires |route| == 8 && SmoothRoute(Ready, route) && route[7] == PaymentProcessing
    ensures Canonical(g) && LastStatus(g) == PaymentProcessing && |g| == 9 && Setbacks(g) == 0
  {
    g := Lap([], Ready, route);
    LapSteps([], Ready, route);
  }

  lemma OneMoreLap(h: seq<Entry>, route: seq<Status>) returns (g: seq<Entry>)
    requires Canonical(h) && LastStatus(h) == PaymentProcessing
    requires |route| == 8 && SmoothRoute(HumanVerification, route) && route[7] == PaymentProcessing
    ensures Canonical(g) && LastStatus(g) == PaymentProcessing && |g| == |h| + 9 && Setbacks(g) == Setbacks(h) + 1
  {
    assert CanTransition(PaymentProcessing, HumanVerification);
    g := Lap(h, HumanVerification, route);
    LapSteps(h, HumanVerification, route);
  }

  // Thrown back from the end of the route to the checkpoint v times.
  lemma {:induction false} ThrownBack(v: nat, route: seq<Status>) returns (g: seq<Entry>)
    requires |route| == 8 && SmoothRoute(Ready, route) && SmoothRoute(HumanVerification, route)
    requires route[7] == PaymentProcessing
    ensures Canonical(g) && LastStatus(g) == PaymentProcessing && |g| == 9 * v + 9 && Setbacks(g) == v
  {
    if v == 0 {
      g := FirstLap(route);
    } else {
      var h := ThrownBack(v - 1, route);
      g := OneMoreLap(h, route);
    }
  }

  lemma LongestRoute() returns (route: seq<Status>)
    ensures |route| == 8 && SmoothRoute(Ready, route) && SmoothRoute(HumanVerification, route) && route[7] == PaymentProcessing
  {
    route := [Authenticating, Monitoring, SlotFound, Booking, AddingApplicants, AppointmentSelected,
              PaymentRequired, PaymentProcessing];
  }

  // For every number of setbacks there is a canonical run of exactly the bounding length.
  lemma RunLengthBoundIsTight(v: nat)
    ensures exists h :: Canonical(h) && Setbacks(h) == v && LastStatus(h) == Confirmed && |h| == 9 * v + 10
  {
    var route := LongestRoute();
    var h := ThrownBack(v, route);
    PushStep(h, Confirmed);
  }

  // ---- Gaps -------------------------------------------------------------------

  // How far along a status is. Draft, the two setbacks and giving up count for nothing.
  function Level(s: Status): nat {
    if Setback(s) || (IsTerminal(s) && s != Confirmed) then 0 else Stage(s)
  }

  // The highest level a case has been at.
  function Height(h: seq<Entry>): nat {
    if h == [] then 0
    else
      var before, last := Height(h[..|h| - 1]), Level(h[|h| - 1].to);
      if last > before then last else before
  }

  ghost predicate AtLevel(h: seq<Entry>, k: nat) {
    exists e :: e in h && Level(e.to) == k
  }

  // Every level up to the highest has been visited.
  ghost predicate Gapless(h: seq<Entry>) {
    forall k: nat :: 1 <= k <= Height(h) ==> AtLevel(h, k)
  }

  // And so it was at every moment.
  ghost predicate AlwaysGapless(h: seq<Entry>) {
    h == [] || (AlwaysGapless(h[..|h| - 1]) && Gapless(h))
  }

  predicate Skips(h: seq<Entry>, to: Status) {
    Level(to) > Height(h) + 1
  }

  lemma {:induction false} HeightIsVisited(h: seq<Entry>)
    ensures Height(h) > 0 ==> AtLevel(h, Height(h))
    ensures forall e :: e in h ==> Level(e.to) <= Height(h)
  {
    if h == [] {
    } else {
      var g, e := h[..|h| - 1], h[|h| - 1];
      assert h == g + [e];
      HeightIsVisited(g);
      if Height(h) == Height(g) && Height(g) > 0 {
        var x :| x in g && Level(x.to) == Height(g);
        assert x in h;
      } else {
        assert e in h;
      }
    }
  }

  lemma AtLevelAppend(h: seq<Entry>, e: Entry, k: nat)
    ensures AtLevel(h + [e], k) <==> AtLevel(h, k) || Level(e.to) == k
  {
    if AtLevel(h, k) {
      var x :| x in h && Level(x.to) == k;
      assert x in h + [e];
    }
    if Level(e.to) == k {
      assert e in h + [e];
    }
  }

  // One more entry opens a gap exactly when it skips a level.
  lemma GapAppend(h: seq<Entry>, e: Entry)
    requires Gapless(h)
    ensures Gapless(h + [e]) <==> !Skips(h, e.to)
    ensures Height(h + [e]) == if Level(e.to) > Height(h) then Level(e.to) else Height(h)
  {
    var g := h + [e];
    assert g[..|h|] == h;
    forall k: nat | 1 <= k <= Height(g)
      ensures AtLevel(g, k) <==> k <= Height(h) || k == Level(e.to)
    {
      AtLevelAppend(h, e, k);
      HeightIsVisited(h);
    }
    if Skips(h, e.to) {
      assert !AtLevel(g, Height(h) + 1);
    }
  }

  lemma AlwaysGaplessAppend(h: seq<Entry>, e: Entry)
    ensures AlwaysGapless(h + [e]) <==> AlwaysGapless(h) && !Skips(h, e.to)
  {
    assert (h + [e])[..|h|] == h;
    if AlwaysGapless(h) {
      assert Gapless(h);
      GapAppend(h, e);
    }
  }

  // A confirmed case without gaps has been through every stage.
  lemma GaplessConfirmation(h: seq<Entry>)
    requires Gapless(h) && Visited(h, Confirmed)
    ensures forall s :: OnTheWay(s) ==> Visited(h, s)
    ensures Visited(h, Monitoring) || Visited(h, WaitingQueue)
  {
    HeightIsVisited(h);
    assert Height(h) >= Level(Confirmed) == 10;
    forall s | OnTheWay(s)
      ensures Visited(h, s)
    {
      LevelIsVisited(h, s);
    }
    assert AtLevel(h, 3);
    var e :| e in h && Level(e.to) == 3;
    assert e.to == Monitoring || e.to == WaitingQueue;
  }

  // Each of these is the only status of its level.
  lemma LevelIsVisited(h: seq<Entry>, s: Status)
    requires OnTheWay(s) && AtLevel(h, Level(s))
    ensures Visited(h, s)
  {
    var e :| e in h && Level(e.to) == Level(s);
    assert e.to == s;
  }

  // ---- Checkpoints --------------------------------------------------------------

  // Every entry into the human checkpoint records where to resume, and that is at most one
  // stage past the place where the challenge arose.
  ghost predicate CarefulCheckpoints(h: seq<Entry>) {
    forall e :: e in h && e.to == HumanVerification ==>
      e.meta.resumeTo.Some? && Stage(e.meta.resumeTo.value) <= Stage(e.from) + 1
  }

  // Leaving the checkpoint, other than by giving up, leads to the status recorded on entry.
  ghost predicate FaithfulResumes(h: seq<Entry>) {
    forall i, j :: 0 <= i && j == i + 1 && j < |h| ==>
      h[j].from == HumanVerification && h[j].to != Failed && h[j].to != Cancelled && h[i].meta.resumeTo.Some? ==>
        h[j].to == h[i].meta.resumeTo.value
  }

  lemma CarefulPrefix(h: seq<Entry>)
    requires h != [] && FaithfulResumes(h) && CarefulCheckpoints(h)
    ensures FaithfulResumes(h[..|h| - 1]) && CarefulCheckpoints(h[..|h| - 1])
  {
    var g := h[..|h| - 1];
    assert forall i :: 0 <= i < |g| ==> g[i] == h[i];
    assert forall x :: x in g ==> x in h;
  }

  // The case stands no higher than it has been, and only cases that were past READY are
  // thrown to a setback.
  predicate Grounded(h: seq<Entry>) {
    Level(LastStatus(h)) <= Height(h) && (Setback(LastStatus(h)) ==> Height(h) >= 2)
  }

  lemma EdgeClimbs(h: seq<Entry>, e: Entry)
    requires Grounded(h) && e.from == LastStatus(h) && CanTransition(e.from, e.to)
    ensures e.from != HumanVerification ==> !Skips(h, e.to)
    ensures Setback(e.to) ==> Height(h) >= 2
  {
  }

  // From a careful checkpoint a case does not skip either.
  lemma CarefulResumeClimbs(g: seq<Entry>, d: Entry, e: Entry)
    requires CanTransition(d.from, d.to) && d.to == e.from == HumanVerification && CanTransition(e.from, e.to)
    requires Level(d.from) <= Height(g)
    requires d.meta.resumeTo.Some? && Stage(d.meta.resumeTo.value) <= Stage(d.from) + 1
    requires e.to == Failed || e.to == Cancelled || e.to == d.meta.resumeTo.value
    ensures !Skips(g, e.to)
  {
  }

  lemma LastEdgeClimbs(h: seq<Entry>)
    requires h != [] && Canonical(h) && FaithfulResumes(h) && CarefulCheckpoints(h)
    requires Grounded(h[..|h| - 1])
    requires |h| > 1 ==> Level(h[|h| - 2].from) <= Height(h[..|h| - 1])
    ensures !Skips(h[..|h| - 1], h[|h| - 1].to)
  {
    CanonicalPrefix(h);
    var g, e := h[..|h| - 1], h[|h| - 1];
    EdgeClimbs(g, e);
    if e.from == HumanVerification {
      var d := h[|h| - 2];
      assert g[|g| - 1] == d && d in h;
      CarefulResumeClimbs(g, d, e);
    }
  }

  // A canonical history with faithful resumes and careful checkpoints never has a gap.
  lemma {:induction false} CarefulCheckpointsLeaveNoGap(h: seq<Entry>)
    requires Canonical(h) && FaithfulResumes(h) && CarefulCheckpoints(h)
    ensures AlwaysGapless(h) && Grounded(h)
    ensures h != [] ==> Level(h[|h| - 1].from) <= Height(h)
  {
    if h == [] {
    } else {
      CanonicalPrefix(h);
      CarefulPrefix(h);
      var g, e := h[..|h| - 1], h[|h| - 1];
      CarefulCheckpointsLeaveNoGap(g);
      LastEdgeClimbs(h);
      EdgeClimbs(g, e);
      AlwaysGaplessAppend(g, e);
    }
  }

  ghost predicate Visited(h: seq<Entry>, s: Status) {
    exists e :: e in h && e.to == s
  }

  // The statuses that no confirmation can do without.
  predicate OnTheWay(s: Status) {
    s in {Ready, Authenticating, SlotFound, Booking, AddingApplicants,
          AppointmentSelected, PaymentRequired, PaymentProcessing}
  }
}
