// The readiness rules a draft must meet before it is marked READY.
module CaseReadiness {
  import opened Wrappers
  import opened CaseStatus
  import opened CaseRecord
  import opened CaseHistory
  import opened DraftLinks

  // ---- Positions 1..N -----------------------------------------------------------------------

  function Upto(n: nat): seq<int> {
    if n == 0 then [] else Upto(n - 1) + [n]
  }

  lemma {:induction false} UptoAt(n: nat)
    ensures |Upto(n)| == n && forall i :: 0 <= i < n ==> Upto(n)[i] == i + 1
  {
    if n == 0 {
    } else {
      UptoAt(n - 1);
    }
  }

  function Positions(links: seq<Link>): seq<int> {
    seq(|links|, i requires 0 <= i < |links| => links[i].position)
  }

  // The positions are 1..N in some order.
  ghost predicate Contiguous(ps: seq<int>) {
    multiset(ps) == multiset(Upto(|ps|))
  }

  // Every number from one to their count is among them.
  ghost predicate Numbered(ps: seq<int>) {
    forall k :: 1 <= k <= |ps| ==> k in ps
  }

  lemma ContiguousIsNumbered(ps: seq<int>)
    requires Contiguous(ps)
    ensures Numbered(ps)
  {
    UptoAt(|ps|);
    forall k | 1 <= k <= |ps|
      ensures k in ps
    {
      assert Upto(|ps|)[k - 1] in multiset(ps);
    }
  }

  lemma WithoutTheLargest(ps: seq<int>, i: nat)
    requires i < |ps| && Numbered(ps) && ps[i] == |ps|
    ensures var rest := ps[..i] + ps[i + 1..]; Numbered(rest) && multiset(ps) == multiset(rest) + multiset{|ps|}
  {
    var rest := ps[..i] + ps[i + 1..];
    assert ps == ps[..i] + [ps[i]] + ps[i + 1..];
    assert multiset(ps) == multiset(rest) + multiset{|ps|};
    forall k | 1 <= k <= |rest|
      ensures k in rest
    {
      assert k in ps && k in multiset(ps) && k in multiset(rest);
    }
  }

  lemma {:induction false} NumberedIsContiguous(ps: seq<int>)
    requires Numbered(ps)
    ensures Contiguous(ps)
  {
    var n := |ps|;
    if n == 0 {
    } else {
      assert n in ps;
      var i :| 0 <= i < n && ps[i] == n;
      WithoutTheLargest(ps, i);
      NumberedIsContiguous(ps[..i] + ps[i + 1..]);
    }
  }

  // ---- Sorting a copy -------------------------------------------------------------------------

  function Insert(x: int, s: seq<int>): seq<int> {
    if s == [] || x <= s[0] then [x] + s else [s[0]] + Insert(x, s[1..])
  }

  function Sorted(s: seq<int>): seq<int> {
    if s == [] then [] else Insert(s[0], Sorted(s[1..]))
  }

  ghost predicate Ascending(s: seq<int>) {
    forall i, j :: 0 <= i < j < |s| ==> s[i] <= s[j]
  }

  lemma {:induction false} InsertAdds(x: int, s: seq<int>)
    ensures multiset(Insert(x, s)) == multiset(s) + multiset{x}
  {
    if s == [] || x <= s[0] {
    } else {
      InsertAdds(x, s[1..]);
      assert s == [s[0]] + s[1..];
    }
  }

  lemma {:induction false} InsertSorts(x: int, s: seq<int>)
    requires Ascending(s)
    ensures Ascending(Insert(x, s))
  {
    if s == [] || x <= s[0] {
    } else {
      var rest := s[1..];
      var t := Insert(x, rest);
      InsertSorts(x, rest);
      InsertAdds(x, rest);
      forall j | 0 <= j < |t|
        ensures s[0] <= t[j]
      {
        assert t[j] in multiset(t);
        assert t[j] == x || t[j] in rest;
      }
    }
  }

  lemma {:induction false} SortedSorts(s: seq<int>)
    ensures Ascending(Sorted(s)) && multiset(Sorted(s)) == multiset(s)
  {
    if s == [] {
    } else {
      SortedSorts(s[1..]);
      InsertSorts(s[0], Sorted(s[1..]));
      InsertAdds(s[0], Sorted(s[1..]));
      assert s == [s[0]] + s[1..];
    }
  }

  lemma {:induction false} SortedLength(s: seq<int>)
    ensures |Sorted(s)| == |s|
  {
    SortedSorts(s);
    assert |Sorted(s)| == |multiset(Sorted(s))| == |multiset(s)|;
  }

  lemma FirstIsLeast(s: seq<int>, t: seq<int>)
    requires Ascending(s) && s != [] && t != [] && multiset(s) == multiset(t)
    ensures s[0] <= t[0]
  {
    assert t[0] in multiset(s);
  }

  lemma {:induction false} AscendingIsUnique(s: seq<int>, t: seq<int>)
    requires Ascending(s) && Ascending(t) && multiset(s) == multiset(t)
    ensures s == t
  {
    assert |s| == |multiset(s)| == |multiset(t)| == |t|;
    if s == [] {
    } else {
      FirstIsLeast(s, t);
      FirstIsLeast(t, s);
      assert s == [s[0]] + s[1..] && t == [t[0]] + t[1..];
      assert multiset(s[1..]) == multiset(s) - multiset{s[0]} == multiset(t[1..]);
      AscendingIsUnique(s[1..], t[1..]);
    }
  }

  // Sorting and comparing with 1, 2, ... accepts exactly the contiguous positions.
  lemma SortAndCompare(ps: seq<int>)
    ensures Sorted(ps) == Upto(|ps|) <==> Contiguous(ps)
  {
    SortedSorts(ps);
    UptoAt(|ps|);
    if Contiguous(ps) {
      AscendingIsUnique(Sorted(ps), Upto(|ps|));
    }
  }

  // ---- Appending keeps 1..N ---------------------------------------------------------------------

  lemma {:induction false} MaxIsInside(links: seq<Link>)
    requires Contiguous(Positions(links))
    ensures MaxPosition(links) == |links|
  {
    var ps := Positions(links);
    UptoAt(|ps|);
    forall i | 0 <= i < |links|
      ensures 1 <= links[i].position <= |links|
    {
      assert ps[i] in multiset(ps);
    }
    MaxPositionBounds(links);
    if links != [] {
      assert Upto(|ps|)[|ps| - 1] in multiset(Upto(|ps|));
      assert |ps| in multiset(ps);
    }
  }

  // Linking applicants without an explicit position keeps the positions 1..N.
  lemma AppendingKeepsContiguous(links: seq<Link>, op: Operation)
    requires Contiguous(Positions(links)) && op.Add? && op.position.None?
    ensures Contiguous(Positions(Rows(links, op)))
  {
    MaxIsInside(links);
    if AddResult(links, op).Ok? {
      var rows := AddResult(links, op).value;
      assert Positions(rows) == Positions(links) + [|links| + 1];
    }
  }

  // ---- The rules -----------------------------------------------------------------------------------

  datatype NotReady =
    | NotDraftCase
    | RouteDisabled
    | MinimumApplicants
    | MissingPrimary
    | MultiplePrimaries
    | InvalidOrdering(expected: int, found: int)
    | MissingRecord(applicantId: string)
    | PassportRule(applicantId: string)
    | RouteMinimum
    | RouteMaximum
    | SplitForbidden

  // What the rules look at besides the links.
  datatype Route = Route(enabled: bool, minimum: Option<int>, maximum: Option<int>, allowSplit: bool)

  // The applicant's record, if it could be loaded: whether the passport satisfies the route.
  type Records = string -> Option<bool>

  function Primaries(links: seq<Link>): nat {
    if links == [] then 0 else Primaries(links[..|links| - 1]) + if links[|links| - 1].isPrimary then 1 else 0
  }

  ghost predicate SomePrimary(links: seq<Link>) {
    exists i :: 0 <= i < |links| && links[i].isPrimary
  }

  ghost predicate TwoPrimaries(links: seq<Link>) {
    exists i, j :: 0 <= i < j < |links| && links[i].isPrimary && links[j].isPrimary
  }

  predicate HasRecord(link: Link, records: Records) {
    records(link.applicantId).Some?
  }

  predicate PassportOk(link: Link, records: Records) {
    records(link.applicantId) == Some(true)
  }

  const FIRST_RULE := 2
  const LAST_RULE := 10

  // The rules by their numbers in the source.
  ghost predicate Rule(n: int, status: Status, links: seq<Link>, route: Route, records: Records, wantsSplit: bool) {
    match n
    case 2 => status == Draft
    case 3 => route.enabled
    case 4 => links != []
    case 5 => SomePrimary(links) && !TwoPrimaries(links)
    case 6 => Contiguous(Positions(links))
    case 7 => forall link :: link in links ==> HasRecord(link, records)
    case 8 => forall link :: link in links ==> PassportOk(link, records)
    case 9 => (route.minimum.Some? ==> |links| >= route.minimum.value) && (route.maximum.Some? ==> |links| <= route.maximum.value)
    case 10 => wantsSplit ==> route.allowSplit
    case _ => true
  }

  function RuleOf(e: NotReady): int {
    match e
    case NotDraftCase => 2
    case RouteDisabled => 3
    case MinimumApplicants => 4
    case MissingPrimary => 5
    case MultiplePrimaries => 5
    case InvalidOrdering(_, _) => 6
    case MissingRecord(_) => 7
    case PassportRule(_) => 8
    case RouteMinimum => 9
    case RouteMaximum => 9
    case SplitForbidden => 10
  }

  // The first link, in order, that fails.
  ghost predicate FirstWithout(links: seq<Link>, ok: Link -> bool, applicantId: string) {
    exists i :: 0 <= i < |links| && links[i].applicantId == applicantId && !ok(links[i])
             && forall j :: 0 <= j < i ==> ok(links[j])
  }

  // What an error says beyond the number of its rule.
  ghost predicate Says(e: NotReady, links: seq<Link>, route: Route, records: Records) {
    match e
    case MissingPrimary => !SomePrimary(links)
    case MultiplePrimaries => TwoPrimaries(links)
    case InvalidOrdering(expected, found) => FirstDeparture(Sorted(Positions(links)), expected, found)
    case MissingRecord(id) => FirstWithout(links, (link: Link) => HasRecord(link, records), id)
    case PassportRule(id) => FirstWithout(links, (link: Link) => PassportOk(link, records), id)
    case RouteMinimum => route.minimum.Some? && |links| < route.minimum.value
    case RouteMaximum =>
      route.maximum.Some? && |links| > route.maximum.value && (route.minimum.Some? ==> |links| >= route.minimum.value)
    case _ => true
  }

  lemma {:induction false} CountingPrimaries(links: seq<Link>)
    ensures Primaries(links) == 0 <==> !SomePrimary(links)
    ensures Primaries(links) > 1 <==> TwoPrimaries(links)
  {
    if links == [] {
    } else {
      var n := |links| - 1;
      var rest := links[..n];
      CountingPrimaries(rest);
      assert forall i :: 0 <= i < n ==> rest[i] == links[i];
      assert SomePrimary(links) <==> SomePrimary(rest) || links[n].isPrimary;
      assert TwoPrimaries(links) <==> TwoPrimaries(rest) || (SomePrimary(rest) && links[n].isPrimary);
    }
  }

  // The numbers before the expected one are in place, and another one is found instead of it.
  ghost predicate FirstDeparture(sorted: seq<int>, expected: int, found: int) {
    && 1 <= expected <= |sorted|
    && sorted[expected - 1] == found != expected
    && forall k :: 0 <= k < expected - 1 ==> sorted[k] == k + 1
  }

  lemma IsUpto(s: seq<int>)
    ensures s == Upto(|s|) <==> forall k :: 0 <= k < |s| ==> s[k] == k + 1
  {
    UptoAt(|s|);
  }

  // The position rule: the first place where the sorted positions leave 1, 2, ... is reported.
  method CheckPositions(links: seq<Link>) returns (r: Option<NotReady>)
    ensures r.None? <==> Contiguous(Positions(links))
    ensures r.Some? ==>
              r.value.InvalidOrdering? && FirstDeparture(Sorted(Positions(links)), r.value.expected, r.value.found)
  {
    var positions := Sorted(Positions(links));
    SortAndCompare(Positions(links));
    SortedLength(Positions(links));
    IsUpto(positions);
    for i := 0 to |positions|
      invariant forall k :: 0 <= k < i ==> positions[k] == k + 1
    {
      var expectedPosition := i + 1;
      if positions[i] != expectedPosition {
        return Some(InvalidOrdering(expectedPosition, positions[i]));
      }
    }
    r := None;
  }

  // The rules on the applicants' records: first that all of them exist, then their passports.
  method CheckRecords(links: seq<Link>, records: Records) returns (r: Option<NotReady>)
    ensures r.None? <==> forall link :: link in links ==> HasRecord(link, records) && PassportOk(link, records)
    ensures r.Some? ==> r.value.MissingRecord? || r.value.PassportRule?
    ensures r.Some? && r.value.MissingRecord? ==>
              FirstWithout(links, (link: Link) => HasRecord(link, records), r.value.applicantId)
    ensures r.Some? && r.value.PassportRule? ==>
              && (forall link :: link in links ==> HasRecord(link, records))
              && FirstWithout(links, (link: Link) => PassportOk(link, records), r.value.applicantId)
  {
    for i := 0 to |links|
      invariant forall j :: 0 <= j < i ==> HasRecord(links[j], records)
    {
      assert links[i] in links;
      if records(links[i].applicantId).None? {
        return Some(MissingRecord(links[i].applicantId));
      }
    }
    for i := 0 to |links|
      invariant forall j :: 0 <= j < i ==> PassportOk(links[j], records)
    {
      assert links[i] in links;
      if records(links[i].applicantId) != Some(true) {
        return Some(PassportRule(links[i].applicantId));
      }
    }
    r := None;
  }

  lemma RulesInWords(status: Status, links: seq<Link>, route: Route, records: Records, wantsSplit: bool)
    ensures (forall n :: FIRST_RULE <= n <= LAST_RULE ==> Rule(n, status, links, route, records, wantsSplit)) <==>
              && Rule(2, status, links, route, records, wantsSplit) && Rule(3, status, links, route, records, wantsSplit)
              && Rule(4, status, links, route, records, wantsSplit) && Rule(5, status, links, route, records, wantsSplit)
              && Rule(6, status, links, route, records, wantsSplit) && Rule(7, status, links, route, records, wantsSplit)
              && Rule(8, status, links, route, records, wantsSplit) && Rule(9, status, links, route, records, wantsSplit)
              && Rule(10, status, links, route, records, wantsSplit)
  {
  }

  lemma OnePrimary(links: seq<Link>)
    ensures SomePrimary(links) && !TwoPrimaries(links) <==>
              exists i :: 0 <= i < |links| && links[i].isPrimary && forall j :: 0 <= j < |links| && links[j].isPrimary ==> j == i
  {
    if SomePrimary(links) && !TwoPrimaries(links) {
      var i :| 0 <= i < |links| && links[i].isPrimary;
      forall j | 0 <= j < |links| && links[j].isPrimary
        ensures j == i
      {
        assert !(i < j) && !(j < i);
      }
    }
  }

  ghost predicate HasPosition(links: seq<Link>, k: int) {
    exists i :: 0 <= i < |links| && links[i].position == k
  }

  lemma NumberedFromOne(links: seq<Link>)
    ensures Contiguous(Positions(links)) <==>
              forall k :: 1 <= k <= |links| ==> HasPosition(links, k)
  {
    var ps := Positions(links);
    if Contiguous(ps) {
      ContiguousIsNumbered(ps);
    } else if Numbered(ps) {
      NumberedIsContiguous(ps);
    }
    forall k | 1 <= k <= |links|
      ensures k in ps <==> HasPosition(links, k)
    {
      if k in ps {
        var i :| 0 <= i < |ps| && ps[i] == k;
        assert links[i].position == k;
      }
      if i :| 0 <= i < |links| && links[i].position == k {
        assert ps[i] == k;
      }
    }
  }

  lemma AllRecords(links: seq<Link>, records: Records)
    ensures (forall link :: link in links ==> HasRecord(link, records) && PassportOk(link, records)) <==>
              forall i :: 0 <= i < |links| ==> records(links[i].applicantId) == Some(true)
  {
    if forall i :: 0 <= i < |links| ==> records(links[i].applicantId) == Some(true) {
      forall link | link in links
        ensures HasRecord(link, records) && PassportOk(link, records)
      {
        var i :| 0 <= i < |links| && links[i] == link;
      }
    }
    if forall link :: link in links ==> HasRecord(link, records) && PassportOk(link, records) {
      forall i | 0 <= i < |links|
        ensures records(links[i].applicantId) == Some(true)
      {
        assert links[i] in links && PassportOk(links[i], records);
      }
    }
  }

  // All rules together: an enabled route, a draft with one primary applicant, its positions numbered
  // from one without a gap, every record there with a passport that satisfies the route, as many
  // applicants as the route allows, and no split that it does not.
  lemma ReadyExactly(status: Status, links: seq<Link>, route: Route, records: Records, wantsSplit: bool)
    ensures (forall n :: FIRST_RULE <= n <= LAST_RULE ==> Rule(n, status, links, route, records, wantsSplit)) <==>
              && status == Draft && route.enabled
              && (exists i :: 0 <= i < |links| && links[i].isPrimary
                           && forall j :: 0 <= j < |links| && links[j].isPrimary ==> j == i)
              && (forall k :: 1 <= k <= |links| ==> HasPosition(links, k))
              && (forall i :: 0 <= i < |links| ==> records(links[i].applicantId) == Some(true))
              && (route.minimum != None ==> route.minimum.value <= |links|)
              && (route.maximum != None ==> |links| <= route.maximum.value)
              && (route.allowSplit || !wantsSplit)
  {
    RulesInWords(status, links, route, records, wantsSplit);
    OnePrimary(links);
    NumberedFromOne(links);
    AllRecords(links, records);
  }

  // A case passes exactly when all rules hold; otherwise the first rule that does not is
  // reported, with what is wrong.
  method ValidateCaseReadiness(status: Status, links: seq<Link>, route: Route, records: Records, wantsSplit: bool)
    returns (r: Option<NotReady>)
    ensures r.Some? ==>
              && !Rule(RuleOf(r.value), status, links, route, records, wantsSplit)
              && (forall n :: FIRST_RULE <= n < RuleOf(r.value) ==> Rule(n, status, links, route, records, wantsSplit))
              && Says(r.value, links, route, records)
    ensures r.None? <==> forall n :: FIRST_RULE <= n <= LAST_RULE ==> Rule(n, status, links, route, records, wantsSplit)
  {
    if status != Draft { return Some(NotDraftCase); }
    if !route.enabled { return Some(RouteDisabled); }
    if |links| == 0 { return Some(MinimumApplicants); }
    CountingPrimaries(links);
    var primaries := Primaries(links);
    if primaries == 0 { return Some(MissingPrimary); }
    if primaries > 1 { return Some(MultiplePrimaries); }
    var ordering := CheckPositions(links);
    if ordering.Some? { return ordering; }
    var checked := CheckRecords(links, records);
    if checked.Some? { return checked; }
    if route.minimum.Some? && |links| < route.minimum.value { return Some(RouteMinimum); }
    if route.maximum.Some? && |links| > route.maximum.value { return Some(RouteMaximum); }
    if wantsSplit && !route.allowSplit { return Some(SplitForbidden); }
    r := None;
  }

  // ---- Marking a case READY ----------------------------------------------------------------------

  class BookingCasesService {
    const row: CaseRow

    constructor (row: CaseRow)
      ensures this.row == row
    {
      this.row := row;
    }

    // Run alone, markReady moves a draft that meets the rules to READY and leaves every other
    // case as it is; a history in order stays in order, although the write does not look at
    // the stored status.
    method MarkReady(links: seq<Link>, route: Route, records: Records, wantsSplit: bool) returns (r: Option<NotReady>)
      modifies row
      ensures r.None? <==> forall n :: FIRST_RULE <= n <= LAST_RULE ==> Rule(n, old(row.status), links, route, records, wantsSplit)
      ensures r.None? ==> row.status == Ready && row.history == old(row.history) + [READY_ENTRY]
      ensures r.Some? ==> row.Value() == old(row.Value())
      ensures Consistent(old(row.Value())) ==> Consistent(row.Value())
    {
      r := ValidateCaseReadiness(row.status, links, route, records, wantsSplit);
      if r.None? {
        assert Rule(2, row.status, links, route, records, wantsSplit);
        ChainAppend(row.history, READY_ENTRY);
        row.TransitionToReady();
      }
    }
  }
}
