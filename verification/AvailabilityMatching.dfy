// Choosing a capacity bucket for a group of applicants.
module AvailabilityMatching {
  import opened Wrappers

  datatype Bucket = Bucket(
    minApplicants: int, maxApplicants: int, earliestDate: string,
    time: Option<string>, externalSlotId: Option<string>, centre: Option<string>)

  datatype Slot = Slot(date: string, time: string, capacity: int, externalSlotId: string, centre: Option<string>)

  datatype Availability =
    | NoSlot
    | GroupCapacityMismatch(requested: int, maximum: int)
    | SlotFound(slot: Slot)

  function MaxCapacity(buckets: seq<Bucket>): int
    requires buckets != []
  {
    var last := buckets[|buckets| - 1].maxApplicants;
    if |buckets| == 1 then last
    else
      var m := MaxCapacity(buckets[..|buckets| - 1]);
      if last > m then last else m
  }

  predicate Covers(b: Bucket, requested: int) {
    b.minApplicants <= requested <= b.maxApplicants
  }

  function FindCovering(buckets: seq<Bucket>, requested: int): Option<Bucket> {
    if buckets == [] then None
    else if Covers(buckets[0], requested) then Some(buckets[0])
    else FindCovering(buckets[1..], requested)
  }

  function FindLargeEnough(buckets: seq<Bucket>, requested: int): Option<Bucket> {
    if buckets == [] then None
    else if buckets[0].maxApplicants >= requested then Some(buckets[0])
    else FindLargeEnough(buckets[1..], requested)
  }

  function WithoutDashes(s: string): string {
    if s == "" then "" else (if s[0] == '-' then "" else [s[0]]) + WithoutDashes(s[1..])
  }

  function SlotOf(b: Bucket, centre: Option<string>): Slot {
    var resolved := if centre.Some? then centre else b.centre;
    Slot(b.earliestDate, b.time.GetOr("09:00"), b.maxApplicants,
         b.externalSlotId.GetOr("slot_" + WithoutDashes(b.earliestDate)),
         if resolved == Some("") then None else resolved)
  }

  function MatchAvailability(buckets: seq<Bucket>, requested: int, centre: Option<string>): Availability {
    if buckets == [] then NoSlot
    else
      var maxCapacity := MaxCapacity(buckets);
      if requested > maxCapacity then GroupCapacityMismatch(requested, maxCapacity)
      else
        match FindCovering(buckets, requested)
        case Some(b) => SlotFound(SlotOf(b, centre))
        case None =>
          match FindLargeEnough(buckets, requested)
          case Some(b) => SlotFound(SlotOf(b, centre))
          case None => NoSlot
  }

  lemma {:induction false} MaxCapacityIsMaximum(buckets: seq<Bucket>)
    requires buckets != []
    ensures forall i :: 0 <= i < |buckets| ==> buckets[i].maxApplicants <= MaxCapacity(buckets)
    ensures exists i :: 0 <= i < |buckets| && buckets[i].maxApplicants == MaxCapacity(buckets)
  {
    var n := |buckets| - 1;
    if n > 0 {
      MaxCapacityIsMaximum(buckets[..n]);
      var i :| 0 <= i < n && buckets[..n][i].maxApplicants == MaxCapacity(buckets[..n]);
      assert buckets[i].maxApplicants == MaxCapacity(buckets[..n]);
    } else {
      assert buckets[0].maxApplicants == MaxCapacity(buckets);
    }
  }

  // The request lies outside the bucket's range.
  predicate Misses(b: Bucket, requested: int) {
    requested < b.minApplicants || b.maxApplicants < requested
  }

  // b is the first bucket that covers the request.
  ghost predicate IsFirstCovering(buckets: seq<Bucket>, requested: int, b: Bucket) {
    exists i :: 0 <= i < |buckets| && buckets[i] == b && b.minApplicants <= requested <= b.maxApplicants
             && forall j :: 0 <= j < i ==> Misses(buckets[j], requested)
  }

  ghost predicate IsFirstLargeEnough(buckets: seq<Bucket>, requested: int, b: Bucket) {
    exists i :: 0 <= i < |buckets| && buckets[i] == b && b.maxApplicants >= requested
             && forall j :: 0 <= j < i ==> buckets[j].maxApplicants < requested
  }

  // Where the search for a covering bucket stops.
  lemma {:induction false} CoveringIndex(buckets: seq<Bucket>, requested: int) returns (i: nat)
    ensures i <= |buckets| && forall j :: 0 <= j < i ==> Misses(buckets[j], requested)
    ensures i < |buckets| ==> FindCovering(buckets, requested) == Some(buckets[i]) && !Misses(buckets[i], requested)
    ensures i == |buckets| ==> FindCovering(buckets, requested) == None
  {
    i := 0;
    if buckets == [] || Covers(buckets[0], requested) {
    } else {
      var k := CoveringIndex(buckets[1..], requested);
      i := k + 1;
      forall j | 0 <= j < i
        ensures Misses(buckets[j], requested)
      {
        if j > 0 {
          assert buckets[1..][j - 1] == buckets[j];
        }
      }
    }
  }

  // The first covering bucket is found, if there is one.
  lemma FindCoveringFinds(buckets: seq<Bucket>, requested: int)
    ensures match FindCovering(buckets, requested)
            case None => forall i :: 0 <= i < |buckets| ==> Misses(buckets[i], requested)
            case Some(b) => IsFirstCovering(buckets, requested, b)
  {
    var i := CoveringIndex(buckets, requested);
  }

  lemma {:induction false} FindLargeEnoughFinds(buckets: seq<Bucket>, requested: int)
    ensures match FindLargeEnough(buckets, requested)
            case None => forall i :: 0 <= i < |buckets| ==> buckets[i].maxApplicants < requested
            case Some(b) => IsFirstLargeEnough(buckets, requested, b)
  {
    if buckets != [] && buckets[0].maxApplicants < requested {
      FindLargeEnoughFinds(buckets[1..], requested);
      if FindLargeEnough(buckets, requested).Some? {
        var b := FindLargeEnough(buckets, requested).value;
        var i :| 0 <= i < |buckets[1..]| && buckets[1..][i] == b
                 && forall j :: 0 <= j < i ==> buckets[1..][j].maxApplicants < requested;
        assert forall j :: 0 < j < i + 1 ==> buckets[j] == buckets[1..][j - 1];
        assert buckets[i + 1] == b;
      } else {
        assert forall i :: 0 < i < |buckets| ==> buckets[i] == buckets[1..][i - 1];
      }
    }
  }

  ghost predicate IsChoice(buckets: seq<Bucket>, requested: int, b: Bucket) {
    || IsFirstCovering(buckets, requested, b)
    || ((forall i :: 0 <= i < |buckets| ==> Misses(buckets[i], requested)) && IsFirstLargeEnough(buckets, requested, b))
  }

  ghost predicate IsLargest(buckets: seq<Bucket>, m: int) {
    && (exists i :: 0 <= i < |buckets| && buckets[i].maxApplicants == m)
    && (forall i :: 0 <= i < |buckets| ==> buckets[i].maxApplicants <= m)
  }

  // What the slot says of its bucket: the bucket's date, capacity and time, nine o'clock without
  // one; its own id, or one made of the date without its dashes; and the caller's centre, or else
  // the bucket's, where an empty one is none.
  ghost predicate Describes(slot: Slot, b: Bucket, centre: Option<string>) {
    && slot.date == b.earliestDate
    && slot.capacity == b.maxApplicants
    && (b.time.Some? ==> slot.time == b.time.value)
    && (b.time.None? ==> slot.time == "09:00")
    && (b.externalSlotId.Some? ==> slot.externalSlotId == b.externalSlotId.value)
    && (b.externalSlotId.None? ==>
          exists digits :: slot.externalSlotId == "slot_" + digits && Undashed(b.earliestDate, digits))
    && (centre.Some? ==> slot.centre == if centre.value != "" then centre else None)
    && (centre.None? ==> slot.centre == if b.centre != Some("") then b.centre else None)
  }

  // The characters of s other than dashes, in their order.
  ghost predicate Undashed(s: string, t: string)
    decreases |s|
  {
    if s == "" then t == ""
    else if s[0] == '-' then Undashed(s[1..], t)
    else t != "" && t[0] == s[0] && Undashed(s[1..], t[1..])
  }

  lemma {:induction false} DashesAreDropped(s: string)
    ensures Undashed(s, WithoutDashes(s))
  {
    if s == "" {
    } else {
      DashesAreDropped(s[1..]);
      assert s[0] == '-' ==> WithoutDashes(s) == WithoutDashes(s[1..]);
      assert s[0] != '-' ==> WithoutDashes(s)[1..] == WithoutDashes(s[1..]);
    }
  }

  // No slot exactly without buckets; a mismatch exactly when the group is larger than every
  // bucket, reported with the largest; otherwise a slot that is large enough, from the first
  // bucket that covers the group if there is one, else from the first large enough.
  lemma MatchingExactly(buckets: seq<Bucket>, requested: int, centre: Option<string>)
    ensures var r := MatchAvailability(buckets, requested, centre);
            && (r == NoSlot <==> buckets == [])
            && (r.GroupCapacityMismatch? <==>
                  buckets != [] && forall i :: 0 <= i < |buckets| ==> buckets[i].maxApplicants < requested)
            && (r.GroupCapacityMismatch? ==> r.requested == requested && IsLargest(buckets, r.maximum))
            && (r.SlotFound? ==> r.slot.capacity >= requested)
    ensures var r := MatchAvailability(buckets, requested, centre);
            r.SlotFound? ==>
              exists b :: IsChoice(buckets, requested, b) && Describes(r.slot, b, centre)
  {
    if buckets != [] {
      MaxCapacityIsMaximum(buckets);
      FindCoveringFinds(buckets, requested);
      FindLargeEnoughFinds(buckets, requested);
      forall b: Bucket
        ensures Describes(SlotOf(b, centre), b, centre)
      {
        DashesAreDropped(b.earliestDate);
      }
    }
  }
}
