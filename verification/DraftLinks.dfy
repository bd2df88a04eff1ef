// The applicants linked to a draft case. Rows are unique by id, by applicant and by position
// within the case, and the database checks uniqueness and the width of an integer column at
// every single update.
module DraftLinks {
  import opened Wrappers
  import opened CaseStatus

  datatype Link = Link(id: string, applicantId: string, position: int, isPrimary: bool)

  datatype Item = Item(id: string, position: int)

  datatype DraftError =
    | NotDraft
    | ApplicantNotFound
    | AlreadyLinked
    | InvalidPosition
    | InvalidPrimary
    | DatabaseError          // a constraint of the table; the transaction is rolled back

  const MAX_INT := 0x7fff_ffff
  const OFFSET := 10000

  ghost predicate DraftOk(links: seq<Link>) {
    && (forall i, j :: 0 <= i < j < |links| ==>
          links[i].id != links[j].id && links[i].applicantId != links[j].applicantId
          && links[i].position != links[j].position && !(links[i].isPrimary && links[j].isPrimary))
    && (forall i :: 0 <= i < |links| ==> 1 <= links[i].position <= MAX_INT)
  }

  predicate HasId(links: seq<Link>, id: string) {
    exists i :: 0 <= i < |links| && links[i].id == id
  }

  predicate HasApplicant(links: seq<Link>, applicantId: string) {
    exists i :: 0 <= i < |links| && links[i].applicantId == applicantId
  }

  predicate TakenByOther(links: seq<Link>, id: string, position: int) {
    exists i :: 0 <= i < |links| && links[i].id != id && links[i].position == position
  }

  // ---- Single writes ---------------------------------------------------------------------

  function WithPosition(links: seq<Link>, id: string, position: int): seq<Link> {
    seq(|links|, i requires 0 <= i < |links| =>
      if links[i].id == id then links[i].(position := position) else links[i])
  }

  // UPDATE of one row's position.
  function UpdatePosition(links: seq<Link>, id: string, position: int): Option<seq<Link>> {
    if HasId(links, id) && position <= MAX_INT && !TakenByOther(links, id, position)
    then Some(WithPosition(links, id, position)) else None
  }

  function OnlyPrimary(links: seq<Link>, id: Option<string>): seq<Link> {
    seq(|links|, i requires 0 <= i < |links| => links[i].(isPrimary := id == Some(links[i].id)))
  }

  function Without(links: seq<Link>, id: string): seq<Link> {
    if links == [] then []
    else Without(links[..|links| - 1], id) + if links[|links| - 1].id == id then [] else [links[|links| - 1]]
  }

  function MaxPosition(links: seq<Link>): int {
    if links == [] then 0
    else
      var m, p := MaxPosition(links[..|links| - 1]), links[|links| - 1].position;
      if p > m then p else m
  }

  lemma {:induction false} MaxPositionBounds(links: seq<Link>)
    requires forall i :: 0 <= i < |links| ==> links[i].position >= 1
    ensures forall i :: 0 <= i < |links| ==> links[i].position <= MaxPosition(links)
    ensures links != [] ==> exists i :: 0 <= i < |links| && links[i].position == MaxPosition(links)
    ensures MaxPosition(links) >= 0
  {
    if links == [] {
    } else {
      MaxPositionBounds(links[..|links| - 1]);
    }
  }

  // ---- The operations -----------------------------------------------------------------------

  datatype Operation =
    | Add(id: string, applicantId: string, known: bool, position: Option<int>, isPrimary: bool)
    | SetPrimary(id: string)
    | Reorder(items: seq<Item>)
    | Remove(id: string)

  function ChosenPosition(links: seq<Link>, position: Option<int>): int {
    position.GetOr(MaxPosition(links) + 1)
  }

  predicate PositionTaken(links: seq<Link>, position: int) {
    exists i :: 0 <= i < |links| && links[i].position == position
  }

  function AddResult(links: seq<Link>, op: Operation): Result<seq<Link>, DraftError>
    requires op.Add?
  {
    if !op.known then Err(ApplicantNotFound)
    else if HasApplicant(links, op.applicantId) then Err(AlreadyLinked)
    else if op.position.Some? && (op.position.value <= 0 || PositionTaken(links, op.position.value)) then Err(InvalidPosition)
    else if ChosenPosition(links, op.position) > MAX_INT || HasId(links, op.id) then Err(DatabaseError)
    else
      var others := if op.isPrimary then OnlyPrimary(links, None) else links;
      Ok(others + [Link(op.id, op.applicantId, ChosenPosition(links, op.position), op.isPrimary)])
  }

  // The checks of the service on a reorder payload.
  predicate Accepted(links: seq<Link>, items: seq<Item>) {
    && |items| == |links|
    && (forall k :: 0 <= k < |items| ==> HasId(links, items[k].id) && items[k].position >= 1)
    && (forall j, k :: 0 <= j < k < |items| ==> items[j].id != items[k].id && items[j].position != items[k].position)
  }

  // The first n updates of one of the two loops.
  function UpdateAll(links: seq<Link>, items: seq<Item>, offset: int, n: nat): Option<seq<Link>>
    requires n <= |items|
  {
    if n == 0 then Some(links)
    else
      match UpdateAll(links, items, offset, n - 1)
      case None => None
      case Some(before) => UpdatePosition(before, items[n - 1].id, items[n - 1].position + offset)
  }

  // Both loops of the transaction.
  function ReorderRows(links: seq<Link>, items: seq<Item>): Option<seq<Link>> {
    match UpdateAll(links, items, OFFSET, |items|)
    case None => None
    case Some(moved) => UpdateAll(moved, items, 0, |items|)
  }

  // ---- Reordering: what the two loops do -------------------------------------------------------

  // The item for an id among the first n.
  function Find(items: seq<Item>, n: nat, id: string): Option<nat>
    requires n <= |items|
    ensures var r := Find(items, n, id);
            && (r.Some? ==> r.value < n && items[r.value].id == id)
            && (r.None? ==> forall k :: 0 <= k < n ==> items[k].id != id)
  {
    if n == 0 then None else if items[n - 1].id == id then Some(n - 1) else Find(items, n - 1, id)
  }

  // The rows after the first n updates, if none of them is refused.
  function MovedRow(link: Link, items: seq<Item>, offset: int, n: nat): Link
    requires n <= |items|
  {
    match Find(items, n, link.id)
    case None => link
    case Some(k) => link.(position := items[k].position + offset)
  }

  function MovedRows(links: seq<Link>, items: seq<Item>, offset: int, n: nat): seq<Link>
    requires n <= |items|
  {
    seq(|links|, i requires 0 <= i < |links| => MovedRow(links[i], items, offset, n))
  }

  // Update n is let through: its value fits the column and no row that is updated later, or
  // not at all, still holds the value.
  ghost predicate LetThrough(links: seq<Link>, items: seq<Item>, offset: int, n: nat)
    requires n < |items|
  {
    && items[n].position + offset <= MAX_INT
    && forall i :: 0 <= i < |links| && Find(items, n + 1, links[i].id).None? ==> links[i].position != items[n].position + offset
  }

  ghost predicate LetThroughUpTo(links: seq<Link>, items: seq<Item>, offset: int, n: nat)
    requires n <= |items|
  {
    forall k :: 0 <= k < n ==> LetThrough(links, items, offset, k)
  }

  lemma StepRows(links: seq<Link>, items: seq<Item>, offset: int, n: nat)
    requires n < |items|
    ensures WithPosition(MovedRows(links, items, offset, n), items[n].id, items[n].position + offset)
         == MovedRows(links, items, offset, n + 1)
  {
  }

  lemma StepClash(links: seq<Link>, items: seq<Item>, offset: int, n: nat)
    requires Accepted(links, items) && n < |items| && items[n].position + offset <= MAX_INT
    ensures TakenByOther(MovedRows(links, items, offset, n), items[n].id, items[n].position + offset)
       <==> !LetThrough(links, items, offset, n)
  {
    var rows, item := MovedRows(links, items, offset, n), items[n];
    forall i | 0 <= i < |links|
      ensures rows[i].id != item.id && rows[i].position == item.position + offset
         <==> Find(items, n + 1, links[i].id).None? && links[i].position == item.position + offset
    {
    }
  }

  lemma UpdateStep(links: seq<Link>, items: seq<Item>, offset: int, n: nat)
    requires Accepted(links, items) && n < |items|
    ensures UpdatePosition(MovedRows(links, items, offset, n), items[n].id, items[n].position + offset)
         == if LetThrough(links, items, offset, n) then Some(MovedRows(links, items, offset, n + 1)) else None
  {
    var rows := MovedRows(links, items, offset, n);
    var h :| 0 <= h < |links| && links[h].id == items[n].id;
    assert rows[h].id == items[n].id;
    StepRows(links, items, offset, n);
    if items[n].position + offset <= MAX_INT {
      StepClash(links, items, offset, n);
    }
  }

  lemma LetThroughStep(links: seq<Link>, items: seq<Item>, offset: int, n: nat)
    requires 0 < n <= |items|
    ensures LetThroughUpTo(links, items, offset, n) <==>
              LetThroughUpTo(links, items, offset, n - 1) && LetThrough(links, items, offset, n - 1)
  {
  }

  lemma NothingMoved(links: seq<Link>, items: seq<Item>, offset: int)
    ensures MovedRows(links, items, offset, 0) == links
  {
  }

  // A loop runs through exactly when every update is let through.
  lemma {:induction false} LoopRuns(links: seq<Link>, items: seq<Item>, offset: int, n: nat)
    requires Accepted(links, items) && n <= |items|
    ensures UpdateAll(links, items, offset, n)
         == if LetThroughUpTo(links, items, offset, n) then Some(MovedRows(links, items, offset, n)) else None
  {
    if n == 0 {
      NothingMoved(links, items, offset);
    } else {
      LoopRuns(links, items, offset, n - 1);
      LetThroughStep(links, items, offset, n);
      UpdateStep(links, items, offset, n - 1);
    }
  }

  // ---- Every link is covered -------------------------------------------------------------------

  function Ids(items: seq<Item>): set<string> {
    set k | 0 <= k < |items| :: items[k].id
  }

  function LinkIds(links: seq<Link>): set<string> {
    set i | 0 <= i < |links| :: links[i].id
  }

  lemma {:induction false} ItemIdsCount(items: seq<Item>)
    requires forall j, k :: 0 <= j < k < |items| ==> items[j].id != items[k].id
    ensures |Ids(items)| == |items|
  {
    if items == [] {
    } else {
      var n := |items| - 1;
      ItemIdsCount(items[..n]);
      assert Ids(items) == Ids(items[..n]) + {items[n].id};
    }
  }

  lemma {:induction false} LinkIdsCount(links: seq<Link>)
    ensures |LinkIds(links)| <= |links|
  {
    if links == [] {
    } else {
      var n := |links| - 1;
      LinkIdsCount(links[..n]);
      assert LinkIds(links) == LinkIds(links[..n]) + {links[n].id};
    }
  }

  lemma SameSizeSubset(a: set<string>, b: set<string>)
    requires a <= b && |b| <= |a|
    ensures a == b
  {
    if x :| x in b && x !in a {
      assert a <= b - {x};
      SubsetSize(a, b - {x});
    }
  }

  lemma {:induction false} SubsetSize(a: set<string>, b: set<string>)
    requires a <= b
    ensures |a| <= |b|
  {
    if a == {} {
    } else {
      var x :| x in a;
      SubsetSize(a - {x}, b - {x});
    }
  }

  // The length, membership and duplicate checks of the service imply that the payload has an
  // item for every link.
  lemma EveryLinkCovered(links: seq<Link>, items: seq<Item>)
    requires Accepted(links, items)
    ensures forall i :: 0 <= i < |links| ==> Find(items, |items|, links[i].id).Some?
  {
    forall k | 0 <= k < |items|
      ensures items[k].id in LinkIds(links)
    {
      assert HasId(links, items[k].id);
    }
    ItemIdsCount(items);
    LinkIdsCount(links);
    SameSizeSubset(Ids(items), LinkIds(links));
    assert forall i :: 0 <= i < |links| ==> links[i].id in LinkIds(links);
  }

  // ---- The transaction ---------------------------------------------------------------------------

  function Reordered(links: seq<Link>, items: seq<Item>): seq<Link> {
    MovedRows(links, items, 0, |items|)
  }

  // The payload can be written: the shifted positions fit the column, no row that is shifted
  // later holds a shifted position, and no requested position is a later item's shifted one.
  ghost predicate Clear(links: seq<Link>, items: seq<Item>) {
    && LetThroughUpTo(links, items, OFFSET, |items|)
    && forall n, m :: 0 <= n < m < |items| ==> items[m].position + OFFSET != items[n].position
  }

  lemma FindItem(items: seq<Item>, n: nat, k: nat)
    requires k < n <= |items| && forall i, j :: 0 <= i < j < |items| ==> items[i].id != items[j].id
    ensures Find(items, n, items[k].id) == Some(k)
  {
  }

  // After the first loop a row that the second loop has not reached holds its own item's
  // shifted position.
  lemma Unreached(links: seq<Link>, items: seq<Item>, n: nat, i: nat)
    requires Accepted(links, items) && n < |items| && i < |links|
    requires Find(items, n + 1, links[i].id).None?
    ensures exists m :: n < m < |items| && items[m].id == links[i].id
              && MovedRows(links, items, OFFSET, |items|)[i].position == items[m].position + OFFSET
  {
    EveryLinkCovered(links, items);
    var m := Find(items, |items|, links[i].id).value;
    assert m > n;
  }

  lemma SecondLoopStops(links: seq<Link>, items: seq<Item>, n: nat, m: nat)
    requires Accepted(links, items) && n < m < |items| && items[m].position + OFFSET == items[n].position
    ensures !LetThrough(MovedRows(links, items, OFFSET, |items|), items, 0, n)
  {
    var moved := MovedRows(links, items, OFFSET, |items|);
    assert HasId(links, items[m].id);
    var i :| 0 <= i < |links| && links[i].id == items[m].id;
    FindItem(items, |items|, m);
    assert moved[i].position == items[m].position + OFFSET && Find(items, n + 1, moved[i].id).None?;
  }

  lemma SecondLoopLetsThrough(links: seq<Link>, items: seq<Item>)
    requires Accepted(links, items) && LetThroughUpTo(links, items, OFFSET, |items|)
    ensures LetThroughUpTo(MovedRows(links, items, OFFSET, |items|), items, 0, |items|) <==> Clear(links, items)
  {
    var moved := MovedRows(links, items, OFFSET, |items|);
    if !Clear(links, items) {
      var n, m :| 0 <= n < m < |items| && items[m].position + OFFSET == items[n].position;
      SecondLoopStops(links, items, n, m);
    } else {
      forall n | 0 <= n < |items|
        ensures LetThrough(moved, items, 0, n)
      {
        assert LetThrough(links, items, OFFSET, n);
        forall i | 0 <= i < |moved| && Find(items, n + 1, moved[i].id).None?
          ensures moved[i].position != items[n].position
        {
          assert moved[i].id == links[i].id;
          Unreached(links, items, n, i);
        }
      }
    }
  }

  lemma MovedTwice(links: seq<Link>, items: seq<Item>)
    requires Accepted(links, items)
    ensures Reordered(MovedRows(links, items, OFFSET, |items|), items) == Reordered(links, items)
  {
    EveryLinkCovered(links, items);
  }

  // For an accepted payload the transaction commits exactly when it is clear, and then it
  // gives every link the requested position.
  lemma ReorderExactly(links: seq<Link>, items: seq<Item>)
    requires Accepted(links, items)
    ensures ReorderRows(links, items) == if Clear(links, items) then Some(Reordered(links, items)) else None
  {
    LoopRuns(links, items, OFFSET, |items|);
    if LetThroughUpTo(links, items, OFFSET, |items|) {
      var moved := MovedRows(links, items, OFFSET, |items|);
      assert Accepted(moved, items) by {
        forall k | 0 <= k < |items|
          ensures HasId(moved, items[k].id)
        {
          var i :| 0 <= i < |links| && links[i].id == items[k].id;
          assert moved[i].id == items[k].id;
        }
      }
      LoopRuns(moved, items, 0, |items|);
      SecondLoopLetsThrough(links, items);
      MovedTwice(links, items);
    }
  }

  // Nothing stands in the way of a payload while all positions are at most the offset.
  lemma SmallPositionsAreClear(links: seq<Link>, items: seq<Item>)
    requires Accepted(links, items)
    requires forall i :: 0 <= i < |links| ==> links[i].position <= OFFSET
    requires forall k :: 0 <= k < |items| ==> items[k].position <= OFFSET
    ensures Clear(links, items)
  {
  }

  lemma Collision(links: seq<Link>, items: seq<Item>)
    requires Accepted(links, items) && |items| == 2
    requires links[1].id == items[1].id && links[1].position == items[0].position + OFFSET
    ensures ReorderRows(links, items).None?
  {
    assert Find(items, 1, links[1].id).None?;
    assert !LetThrough(links, items, OFFSET, 0);
    ReorderExactly(links, items);
  }

  // Beyond it an accepted payload can fail: the first shifted position is the second link's own.
  lemma LargePositionsCollide()
    ensures exists links, items :: DraftOk(links) && Accepted(links, items) && ReorderRows(links, items).None?
  {
    var a, b := "a", "b";
    assert a[0] != b[0];
    var links := [Link(a, a, 1, true), Link(b, b, 10002, false)];
    var items := [Item(a, 2), Item(b, 1)];
    assert links[0].id == a && links[1].id == b;
    assert HasId(links, a) && HasId(links, b);
    Collision(links, items);
  }

  // A committed reorder keeps everything but the positions, which are the payload's.
  lemma ReorderedIsThePayload(links: seq<Link>, items: seq<Item>)
    requires DraftOk(links) && Accepted(links, items) && Clear(links, items)
    ensures DraftOk(Reordered(links, items))
    ensures forall i :: 0 <= i < |links| ==>
              && Reordered(links, items)[i] == links[i].(position := Reordered(links, items)[i].position)
              && Item(links[i].id, Reordered(links, items)[i].position) in items
  {
    EveryLinkCovered(links, items);
    var rows := Reordered(links, items);
    forall i | 0 <= i < |links|
      ensures Item(links[i].id, rows[i].position) in items && 1 <= rows[i].position <= MAX_INT
    {
      var k := Find(items, |items|, links[i].id).value;
      assert rows[i].position == items[k].position && items[k] == Item(links[i].id, rows[i].position);
      assert LetThrough(links, items, OFFSET, k);
    }
    forall i, j | 0 <= i < j < |links|
      ensures rows[i].position != rows[j].position
    {
      var k, m := Find(items, |items|, links[i].id).value, Find(items, |items|, links[j].id).value;
      assert k != m;
    }
  }

  // ---- All operations on the rows of a draft ------------------------------------------------------

  function Apply(links: seq<Link>, op: Operation): Result<seq<Link>, DraftError> {
    match op
    case Add(_, _, _, _, _) => AddResult(links, op)
    case SetPrimary(id) => if HasId(links, id) then Ok(OnlyPrimary(links, Some(id))) else Err(InvalidPrimary)
    case Reorder(items) =>
      if !Accepted(links, items) then Err(InvalidPosition)
      else (match ReorderRows(links, items) case Some(rows) => Ok(rows) case None => Err(DatabaseError))
    case Remove(id) => if HasId(links, id) then Ok(Without(links, id)) else Err(InvalidPosition)
  }

  function Rows(links: seq<Link>, op: Operation): seq<Link> {
    match Apply(links, op)
    case Ok(rows) => rows
    case Err(_) => links
  }

  function RowsAfter(ops: seq<Operation>): seq<Link> {
    if ops == [] then [] else Rows(RowsAfter(ops[..|ops| - 1]), ops[|ops| - 1])
  }

  // One row more, the last one, with what was asked for; without a position it comes after every
  // other. The other rows are as before, apart from being primary if the new one is.
  ghost predicate Adds(links: seq<Link>, rows: seq<Link>, id: string, applicantId: string, position: Option<int>, isPrimary: bool) {
    var n := |links|;
    && |rows| == n + 1
    && rows[n].id == id && rows[n].applicantId == applicantId && rows[n].isPrimary == isPrimary
    && (position.Some? ==> rows[n].position == position.value)
    && (position.None? && links == [] ==> rows[n].position == 1)
    && (position.None? && links != [] ==>
          (exists i :: 0 <= i < n && rows[n].position == links[i].position + 1)
          && (forall i :: 0 <= i < n ==> links[i].position < rows[n].position))
    && (forall i :: 0 <= i < n ==> rows[i] == links[i].(isPrimary := links[i].isPrimary && !isPrimary))
  }

  // What stands in the way of adding an applicant: first the applicant is looked up, then the link,
  // then the position asked for, and last the table's own constraints.
  lemma AddExactly(links: seq<Link>, id: string, applicantId: string, known: bool, position: Option<int>, isPrimary: bool)
    requires DraftOk(links)
    ensures var r := AddResult(links, Add(id, applicantId, known, position, isPrimary));
            && (r.Ok? ==> Adds(links, r.value, id, applicantId, position, isPrimary))
            && (r == Err(ApplicantNotFound) <==> !known)
            && (r == Err(AlreadyLinked) <==> known && exists i :: 0 <= i < |links| && links[i].applicantId == applicantId)
            && (r == Err(InvalidPosition) <==>
                  && known && (forall i :: 0 <= i < |links| ==> links[i].applicantId != applicantId) && position.Some?
                  && (position.value < 1 || exists i :: 0 <= i < |links| && links[i].position == position.value))
            && (r.Err? ==> r.error in {ApplicantNotFound, AlreadyLinked, InvalidPosition, DatabaseError})
            && (r == Err(DatabaseError) ==>
                  || (position.Some? && position.value > 2147483647)
                  || (position.None? && exists i :: 0 <= i < |links| && links[i].position == 2147483647)
                  || exists i :: 0 <= i < |links| && links[i].id == id)
            && (r.Ok? ==> r.value[|links|].position <= 2147483647 && forall i :: 0 <= i < |links| ==> links[i].id != id)
  {
    MaxPositionBounds(links);
  }

  lemma AddKeeps(links: seq<Link>, op: Operation)
    requires DraftOk(links) && op.Add? && AddResult(links, op).Ok?
    ensures DraftOk(AddResult(links, op).value)
  {
    MaxPositionBounds(links);
    var rows := AddResult(links, op).value;
    var n := |links|;
    forall i | 0 <= i < n
      ensures rows[i].id == links[i].id && rows[i].applicantId == links[i].applicantId && rows[i].position == links[i].position
      ensures links[i].id != op.id && links[i].applicantId != op.applicantId && links[i].position != rows[n].position
    {
      assert !HasId(links, op.id) && !HasApplicant(links, op.applicantId);
    }
  }

  lemma OneMoreRow(rows: seq<Link>, row: Link)
    requires DraftOk(rows) && 1 <= row.position <= MAX_INT
    requires forall r <- rows ::
               r.id != row.id && r.applicantId != row.applicantId && r.position != row.position && !(r.isPrimary && row.isPrimary)
    ensures DraftOk(rows + [row])
  {
    assert forall i :: 0 <= i < |rows| ==> rows[i] in rows;
  }

  // What removal leaves: the other rows, in their order.
  lemma {:induction false} RemoveKeeps(links: seq<Link>, id: string)
    requires DraftOk(links)
    ensures DraftOk(Without(links, id))
    ensures forall link :: link in Without(links, id) <==> link in links && link.id != id
  {
    if links == [] {
    } else {
      var n := |links| - 1;
      RemoveKeeps(links[..n], id);
      assert links == links[..n] + [links[n]];
      if links[n].id != id {
        OneMoreRow(Without(links[..n], id), links[n]);
      }
    }
  }

  // It closes the gap where the row was.
  lemma {:induction false} RemoveExactly(links: seq<Link>, k: nat)
    requires DraftOk(links) && k < |links|
    ensures Without(links, links[k].id) == links[..k] + links[k + 1..]
  {
    var n := |links| - 1;
    if k == n {
      StaysWithout(links[..n], links[k].id);
    } else {
      RemoveExactly(links[..n], k);
      assert links[..n][k + 1..] + [links[n]] == links[k + 1..];
    }
  }

  lemma {:induction false} StaysWithout(links: seq<Link>, id: string)
    requires forall i :: 0 <= i < |links| ==> links[i].id != id
    ensures Without(links, id) == links
  {
    if links == [] {
    } else {
      StaysWithout(links[..|links| - 1], id);
      assert links == links[..|links| - 1] + [links[|links| - 1]];
    }
  }

  // Every operation keeps applicants and positions distinct, positions positive and at most
  // one primary applicant.
  lemma ApplyKeeps(links: seq<Link>, op: Operation)
    requires DraftOk(links)
    ensures DraftOk(Rows(links, op))
  {
    match op
    case Add(_, _, _, _, _) =>
      if AddResult(links, op).Ok? {
        AddKeeps(links, op);
      }
    case Reorder(items) =>
      if Accepted(links, items) {
        ReorderExactly(links, items);
        if Clear(links, items) {
          ReorderedIsThePayload(links, items);
        }
      }
    case Remove(id) => RemoveKeeps(links, id);
    case SetPrimary(_) =>
  }

  lemma {:induction false} DraftsStayInOrder(ops: seq<Operation>)
    ensures DraftOk(RowsAfter(ops))
  {
    if ops == [] {
    } else {
      DraftsStayInOrder(ops[..|ops| - 1]);
      ApplyKeeps(RowsAfter(ops[..|ops| - 1]), ops[|ops| - 1]);
    }
  }

  // Setting a primary applicant makes it the only one.
  lemma PrimaryIsUnique(links: seq<Link>, id: string)
    requires DraftOk(links) && HasId(links, id)
    ensures forall i :: 0 <= i < |links| ==>
              Rows(links, SetPrimary(id))[i] == links[i].(isPrimary := links[i].id == id)
    ensures exists i :: 0 <= i < |links| && Rows(links, SetPrimary(id))[i].isPrimary
  {
  }

  // ---- The service ------------------------------------------------------------------------------

  lemma {:induction false} RefusedStaysRefused(links: seq<Link>, items: seq<Item>, offset: int, n: nat, m: nat)
    requires n <= m <= |items| && UpdateAll(links, items, offset, n).None?
    ensures UpdateAll(links, items, offset, m).None?
  {
    if n == m {
    } else {
      RefusedStaysRefused(links, items, offset, n, m - 1);
    }
  }

  // What a call of the service does to the rows and what it reports.
  function Served(status: Status, links: seq<Link>, op: Operation): (seq<Link>, Option<DraftError>) {
    if status != Draft then (links, Some(NotDraft))
    else
      match Apply(links, op)
      case Ok(rows) => (rows, None)
      case Err(error) => (links, Some(error))
  }

  // Only drafts are edited, and a refused call changes nothing. Setting the primary applicant and
  // removing one fail exactly for a link the case does not have; reordering fails for a payload that
  // is not accepted, and otherwise exactly when a constraint of the table is in the way.
  lemma RefusalsExactly(status: Status, links: seq<Link>, op: Operation)
    ensures var (rows, error) := Served(status, links, op);
            && (error == Some(NotDraft) <==> status != Draft)
            && (error.Some? ==> rows == links)
            && (status == Draft ==>
                  match op
                  case SetPrimary(id) =>
                    error == if exists i :: 0 <= i < |links| && links[i].id == id then None else Some(InvalidPrimary)
                  case Remove(id) =>
                    error == if exists i :: 0 <= i < |links| && links[i].id == id then None else Some(InvalidPosition)
                  case Reorder(items) =>
                    error == if !Accepted(links, items) then Some(InvalidPosition)
                             else if !Clear(links, items) then Some(DatabaseError) else None
                  case _ => true)
  {
    if op.Reorder? && Accepted(links, op.items) {
      ReorderExactly(links, op.items);
    }
  }

  // The payload has an item for every link.
  ghost predicate NamesEvery(links: seq<Link>, items: seq<Item>) {
    forall i :: 0 <= i < |links| ==> exists k :: 0 <= k < |items| && items[k].id == links[i].id
  }

  lemma {:induction false} ItemIdsBound(items: seq<Item>)
    ensures |Ids(items)| <= |items|
  {
    if items == [] {
    } else {
      var n := |items| - 1;
      ItemIdsBound(items[..n]);
      assert Ids(items) == Ids(items[..n]) + {items[n].id};
    }
  }

  lemma DuplicatesShrink(items: seq<Item>, j: nat, k: nat)
    requires j < k < |items| && items[j].id == items[k].id
    ensures |Ids(items)| < |items|
  {
    var rest := items[..k] + items[k + 1..];
    ItemIdsBound(rest);
    forall m | 0 <= m < |items|
      ensures items[m].id in Ids(rest)
    {
      assert rest[if m < k then m else if m == k then j else m - 1].id == items[m].id;
    }
    SubsetSize(Ids(items), Ids(rest));
  }

  // A payload of the right length that names every link names no other and none twice.
  lemma CoveringItems(links: seq<Link>, items: seq<Item>)
    requires DraftOk(links) && |items| == |links| && NamesEvery(links, items)
    ensures forall k :: 0 <= k < |items| ==> HasId(links, items[k].id)
    ensures forall j, k :: 0 <= j < k < |items| ==> items[j].id != items[k].id
  {
    DistinctLinkIds(links);
    ItemIdsBound(items);
    forall id | id in LinkIds(links)
      ensures id in Ids(items)
    {
      var i :| 0 <= i < |links| && links[i].id == id;
    }
    SameSizeSubset(LinkIds(links), Ids(items));
    forall k | 0 <= k < |items|
      ensures HasId(links, items[k].id)
    {
      assert items[k].id in Ids(items);
    }
    if j, k :| 0 <= j < k < |items| && items[j].id == items[k].id {
      DuplicatesShrink(items, j, k);
    }
  }

  lemma {:induction false} DistinctLinkIds(links: seq<Link>)
    requires forall i, j :: 0 <= i < j < |links| ==> links[i].id != links[j].id
    ensures |LinkIds(links)| == |links|
  {
    if links == [] {
    } else {
      var n := |links| - 1;
      DistinctLinkIds(links[..n]);
      assert LinkIds(links) == LinkIds(links[..n]) + {links[n].id};
    }
  }

  // It asks for different positions from one on.
  ghost predicate DistinctPositions(items: seq<Item>) {
    && (forall k :: 0 <= k < |items| ==> items[k].position >= 1)
    && (forall j, k :: 0 <= j < k < |items| ==> items[j].position != items[k].position)
  }

  lemma AcceptedNamesEvery(links: seq<Link>, items: seq<Item>)
    requires Accepted(links, items)
    ensures NamesEvery(links, items)
  {
    EveryLinkCovered(links, items);
    forall i | 0 <= i < |links|
      ensures exists k :: 0 <= k < |items| && items[k].id == links[i].id
    {
      var k := Find(items, |items|, links[i].id).value;
      assert items[k].id == links[i].id;
    }
  }

  lemma AcceptedPositions(links: seq<Link>, items: seq<Item>, j: nat, k: nat)
    requires Accepted(links, items) && j < k < |items|
    ensures items[j].position >= 1 && items[k].position >= 1 && items[j].position != items[k].position
  {
    assert items[j].id != items[k].id;
    assert HasId(links, items[j].id) && HasId(links, items[k].id);
  }

  lemma AcceptedAreDistinct(links: seq<Link>, items: seq<Item>)
    requires Accepted(links, items)
    ensures DistinctPositions(items)
  {
    forall j, k | 0 <= j < k < |items|
      ensures items[j].position != items[k].position
    {
      AcceptedPositions(links, items, j, k);
    }
    forall k | 0 <= k < |items|
      ensures items[k].position >= 1
    {
      assert HasId(links, items[k].id);
    }
  }

  // A payload is accepted exactly when it has as many items as there are links, names every one and
  // asks for different positions from one on.
  lemma AcceptedExactly(links: seq<Link>, items: seq<Item>)
    requires DraftOk(links)
    ensures Accepted(links, items) <==> |items| == |links| && NamesEvery(links, items) && DistinctPositions(items)
  {
    if Accepted(links, items) {
      AcceptedNamesEvery(links, items);
      AcceptedAreDistinct(links, items);
    } else if |items| == |links| && NamesEvery(links, items) {
      CoveringItems(links, items);
    }
  }

  class DraftCase {
    var status: Status
    var links: seq<Link>

    constructor ()
      ensures status == Draft && links == []
    {
      status, links := Draft, [];
    }

    method AddApplicant(id: string, applicantId: string, known: bool, position: Option<int>, isPrimary: bool)
      returns (r: Option<DraftError>)
      modifies this`links
      ensures status == old(status) && (links, r) == Served(status, old(links), Add(id, applicantId, known, position, isPrimary))
      ensures r.None? && DraftOk(old(links)) ==> Adds(old(links), links, id, applicantId, position, isPrimary)
      ensures r.Some? ==> links == old(links)
    {
      if DraftOk(links) {
        AddExactly(links, id, applicantId, known, position, isPrimary);
      }
      if status != Draft { return Some(NotDraft); }
      if !known { return Some(ApplicantNotFound); }
      if HasApplicant(links, applicantId) { return Some(AlreadyLinked); }
      var chosen;
      if position.Some? {
        chosen := position.value;
        if chosen <= 0 { return Some(InvalidPosition); }
        if PositionTaken(links, chosen) { return Some(InvalidPosition); }
      } else {
        chosen := MaxPosition(links) + 1;
      }
      var rows := links;
      if isPrimary {
        rows := OnlyPrimary(rows, None);
      }
      if chosen > MAX_INT || HasId(links, id) { return Some(DatabaseError); }
      links := rows + [Link(id, applicantId, chosen, isPrimary)];
      r := None;
    }

    method SetPrimaryApplicant(id: string) returns (r: Option<DraftError>)
      modifies this`links
      ensures status == old(status) && (links, r) == Served(status, old(links), SetPrimary(id))
    {
      if status != Draft { return Some(NotDraft); }
      if !HasId(links, id) { return Some(InvalidPrimary); }
      // unset the current primary, then set the new one
      var rows := OnlyPrimary(links, None);
      links := seq(|rows|, i requires 0 <= i < |rows| => if rows[i].id == id then rows[i].(isPrimary := true) else rows[i]);
      assert links == OnlyPrimary(old(links), Some(id));
      r := None;
    }

    method RemoveApplicant(id: string) returns (r: Option<DraftError>)
      modifies this`links
      ensures status == old(status) && (links, r) == Served(status, old(links), Remove(id))
    {
      if status != Draft { return Some(NotDraft); }
      if !HasId(links, id) { return Some(InvalidPosition); }
      links := Without(links, id);
      r := None;
    }

    // The payload checks of the service, item by item.
    method CheckPayload(items: seq<Item>) returns (accepted: bool)
      ensures accepted <==> Accepted(links, items)
    {
      if |items| != |links| {
        return false;
      }
      var ids: set<string>, positions: set<int> := {}, {};
      for k := 0 to |items|
        invariant ids == set j | 0 <= j < k :: items[j].id
        invariant positions == set j | 0 <= j < k :: items[j].position
        invariant forall j :: 0 <= j < k ==> HasId(links, items[j].id) && items[j].position >= 1
        invariant forall i, j :: 0 <= i < j < k ==> items[i].id != items[j].id && items[i].position != items[j].position
      {
        var item := items[k];
        if !HasId(links, item.id) || item.id in ids || item.position <= 0 || item.position in positions {
          return false;
        }
        ids, positions := ids + {item.id}, positions + {item.position};
      }
      accepted := true;
    }

    // One of the two loops of the transaction, on its uncommitted rows.
    method UpdateLoop(rows: seq<Link>, items: seq<Item>, offset: int) returns (r: Option<seq<Link>>)
      ensures r == UpdateAll(rows, items, offset, |items|)
    {
      var current := rows;
      for k := 0 to |items|
        invariant UpdateAll(rows, items, offset, k) == Some(current)
      {
        var updated := UpdatePosition(current, items[k].id, items[k].position + offset);
        if updated.None? {
          RefusedStaysRefused(rows, items, offset, k + 1, |items|);
          return None;
        }
        current := updated.value;
      }
      r := Some(current);
    }

    method ReorderApplicants(items: seq<Item>) returns (r: Option<DraftError>)
      modifies this`links
      ensures status == old(status) && (links, r) == Served(status, old(links), Reorder(items))
    {
      if status != Draft { return Some(NotDraft); }
      var accepted := CheckPayload(items);
      if !accepted { return Some(InvalidPosition); }
      var shifted := UpdateLoop(links, items, OFFSET);
      if shifted.None? { return Some(DatabaseError); }
      var final := UpdateLoop(shifted.value, items, 0);
      if final.None? { return Some(DatabaseError); }
      links := final.value;
      r := None;
    }
  }
}
