/** The LOOK/SCAN request scheduler: two ordered sets of pending floors, the
    up queue and the down queue. The datatype Queues is the value of the
    scheduler's state and defines what each operation does to it; the class
    Scheduler holds that state in two fields and updates them in place. */
module Scheduling {
  import opened Directions
  import opened Requests
  import opened OrderedFloors

  /** Which queue a new, non-duplicate request joins. A hall call keeps its
      own direction when the cab can reach it travelling that way (an UP call
      at or above the cab, a DOWN call at or below it); every other request
      is placed by position only. */
  function Placement(r: Request, currentFloor: int): (d: Direction)
    ensures d.IsMoving()
    ensures d == Up ==> r.floor >= currentFloor
    ensures d == Down ==> r.floor <= currentFloor
    ensures r.HallCall? && r.direction == Up && r.floor >= currentFloor ==> d == Up
    ensures r.HallCall? && r.direction == Down && r.floor <= currentFloor ==> d == Down
    ensures d == Down && r.floor == currentFloor ==> r.HallCall? && r.direction == Down
  {
    var desired := r.DesiredDirection();
    if r.Type() == Hall && desired.IsMoving() && desired == Up && r.floor >= currentFloor then Up
    else if r.Type() == Hall && desired.IsMoving() && desired == Down && r.floor <= currentFloor then Down
    else if r.floor >= currentFloor then Up
    else Down
  }

  datatype Queues = Queues(up: seq<int>, down: seq<int>) {

    /** Both queues are ordered sets and no floor is pending in both. */
    predicate Valid() {
      Ascending(up) && Ascending(down) && Elems(up) !! Elems(down)
    }

    function Pending(): set<int> {
      Elems(up) + Elems(down)
    }

    function Contains(floor: int): (b: bool)
      ensures b <==> floor in Pending()
    {
      floor in up || floor in down
    }

    /** The state after submitting r while the cab is at currentFloor: a
        duplicate changes nothing, a new floor joins the queue Placement
        chooses. */
    function Submit(r: Request, currentFloor: int): (q: Queues)
      requires Valid()
      ensures q.Valid()
      ensures Contains(r.floor) ==> q == this
      ensures !Contains(r.floor) ==>
        q.Pending() == Pending() + {r.floor}
        && (r.floor in Elems(q.up) <==> Placement(r, currentFloor) == Up)
        && Elems(q.up) - {r.floor} == Elems(up) && Elems(q.down) - {r.floor} == Elems(down)
    {
      if Contains(r.floor) then this
      else if Placement(r, currentFloor) == Up then Queues(Insert(up, r.floor), down)
      else Queues(up, Insert(down, r.floor))
    }

    /** The state after serving floor: it is pending nowhere, every other
        floor stays in its queue. */
    function Consume(floor: int): (q: Queues)
      requires Valid()
      ensures q.Valid()
      ensures Elems(q.up) == Elems(up) - {floor} && Elems(q.down) == Elems(down) - {floor}
      ensures q.Pending() == Pending() - {floor}
      ensures !Contains(floor) ==> q == this
    {
      Queues(Remove(up, floor), Remove(down, floor))
    }

    /** The state after rebalancing at currentFloor: the floors at or above
        it form the up queue, the floors below it the down queue. */
    function Rebalance(currentFloor: int): (q: Queues)
      requires Valid()
      ensures q.Valid()
      ensures q.Pending() == Pending()
      ensures forall x :: x in Elems(q.up) ==> x >= currentFloor
      ensures forall x :: x in Elems(q.down) ==> x < currentFloor
    {
      Queues(Union(AtOrAbove(up, currentFloor), AtOrAbove(down, currentFloor)),
             Union(Below(up, currentFloor), Below(down, currentFloor)))
    }

    function HasUpRequestsAhead(currentFloor: int): (b: bool)
      requires Valid()
      ensures b <==> exists x :: x in up && x > currentFloor
    {
      Higher(up, currentFloor).Some?
    }

    function HasDownRequestsBelow(currentFloor: int): (b: bool)
      requires Valid()
      ensures b <==> exists x :: x in down && x < currentFloor
    {
      Lower(down, currentFloor).Some?
    }

    function HasUpRequestsAtOrAbove(currentFloor: int): (b: bool)
      requires Valid()
      ensures b <==> exists x :: x in up && x >= currentFloor
    {
      Ceiling(up, currentFloor).Some?
    }

    function HasDownRequestsAtOrBelow(currentFloor: int): (b: bool)
      requires Valid()
      ensures b <==> exists x :: x in down && x <= currentFloor
    {
      Floor(down, currentFloor).Some?
    }

    /** The next travel direction: keep the preferred sweep while its side
        has work, otherwise take whichever side has work, otherwise stop. */
    function PreferredDirection(currentFloor: int, preference: Direction): (d: Direction)
      requires Valid()
      ensures d == Up ==> exists x :: x in up && x >= currentFloor
      ensures d == Down ==> exists x :: x in down && x <= currentFloor
      ensures d == Idle <==>
        (forall x :: x in up ==> x < currentFloor) && (forall x :: x in down ==> x > currentFloor)
      ensures preference == Up && (exists x :: x in up && x >= currentFloor) ==> d == Up
      ensures preference == Down && (exists x :: x in down && x <= currentFloor) ==> d == Down
      ensures preference == Idle && (exists x :: x in up && x >= currentFloor) ==> d == Up
    {
      if preference == Up && HasUpRequestsAtOrAbove(currentFloor) then Up
      else if preference == Down && HasDownRequestsAtOrBelow(currentFloor) then Down
      else if HasUpRequestsAtOrAbove(currentFloor) then Up
      else if HasDownRequestsAtOrBelow(currentFloor) then Down
      else Idle
    }

    /** The up queue in approach order for an upward sweep. */
    function SnapshotUpQueue(): (s: seq<int>)
      requires Valid()
      ensures Ascending(s) && Elems(s) == Elems(up)
    {
      up
    }

    /** The down queue in approach order for a downward sweep. */
    function SnapshotDownQueue(): (s: seq<int>)
      requires Valid()
      ensures Descending(s) && Elems(s) == Elems(down) && |s| == |down|
    {
      Reverse(down)
    }
  }

  /** Two queue states holding the same pending floors and both split at
      currentFloor (up queue at or above it, down queue below it) are equal. */
  lemma SplitDeterminesQueues(p: Queues, q: Queues, currentFloor: int)
    requires p.Valid() && q.Valid() && p.Pending() == q.Pending()
    requires forall x :: x in Elems(p.up) ==> x >= currentFloor
    requires forall x :: x in Elems(p.down) ==> x < currentFloor
    requires forall x :: x in Elems(q.up) ==> x >= currentFloor
    requires forall x :: x in Elems(q.down) ==> x < currentFloor
    ensures p == q
  {
    forall x ensures x in Elems(p.up) <==> x in Elems(q.up) {
      assert x in p.Pending() <==> x in q.Pending();
    }
    forall x ensures x in Elems(p.down) <==> x in Elems(q.down) {
      assert x in p.Pending() <==> x in q.Pending();
    }
    AscendingUnique(p.up, q.up);
    AscendingUnique(p.down, q.down);
  }

  /** Rebalancing twice at the same floor changes nothing the second time. */
  lemma RebalanceIdempotent(q: Queues, currentFloor: int)
    requires q.Valid()
    ensures q.Rebalance(currentFloor).Rebalance(currentFloor) == q.Rebalance(currentFloor)
  {
    var r := q.Rebalance(currentFloor);
    SplitDeterminesQueues(r.Rebalance(currentFloor), r, currentFloor);
  }

  /** After a rebalance the queue of a pending floor is fixed by its
      position alone. */
  lemma RebalanceSplitsAtFloor(q: Queues, currentFloor: int, x: int)
    requires q.Valid() && x in q.Pending()
    ensures x in Elems(q.Rebalance(currentFloor).up) <==> x >= currentFloor
    ensures x in Elems(q.Rebalance(currentFloor).down) <==> x < currentFloor
  {
  }

  /** The snapshots list exactly the pending floors, each once. */
  lemma SnapshotsListPending(q: Queues)
    requires q.Valid()
    ensures Elems(q.SnapshotUpQueue()) + Elems(q.SnapshotDownQueue()) == q.Pending()
    ensures Elems(q.SnapshotUpQueue()) !! Elems(q.SnapshotDownQueue())
  {
  }

  /** The first half of a rebalance: the up-queue floors below c join the
      down queue (nothing to move when there are none). */
  lemma MoveBelowDown(q: Queues, c: int)
    requires q.Valid()
    ensures var m := Queues(AtOrAbove(q.up, c), Union(q.down, Below(q.up, c)));
      m.Valid() && m.Pending() == q.Pending() && forall x :: x in Elems(m.up) ==> x >= c
    ensures Below(q.up, c) == [] ==> forall x :: x in Elems(q.up) ==> x >= c
  {
    var below := Below(q.up, c);
    ElemsEmpty(below);
    if below == [] {
      forall x | x in Elems(q.up) ensures x >= c {
        assert x < c ==> x in Elems(below);
      }
    }
  }

  /** The second half: with the up queue at or above c, the down-queue
      floors at or above c join it, and the split is complete. */
  lemma MoveAboveUp(q: Queues, c: int)
    requires q.Valid() && forall x :: x in Elems(q.up) ==> x >= c
    ensures var m := Queues(Union(q.up, AtOrAbove(q.down, c)), Below(q.down, c));
      && m.Valid() && m.Pending() == q.Pending()
      && (forall x :: x in Elems(m.up) ==> x >= c) && (forall x :: x in Elems(m.down) ==> x < c)
    ensures AtOrAbove(q.down, c) == [] ==> forall x :: x in Elems(q.down) ==> x < c
  {
    var above := AtOrAbove(q.down, c);
    ElemsEmpty(above);
    if above == [] {
      forall x | x in Elems(q.down) ensures x < c {
        assert x >= c ==> x in Elems(above);
      }
    }
  }

  /** The scheduler object. Its read-only queries (hasUpRequestsAhead,
      hasDownRequestsBelow, preferredDirection, the snapshots) are the
      functions of Queues applied to State(). */
  class Scheduler {
    var up: seq<int>
    var down: seq<int>

    function State(): Queues
      reads this
    {
      Queues(up, down)
    }

    predicate Valid()
      reads this
    {
      State().Valid()
    }

    constructor ()
      ensures Valid() && State() == Queues([], [])
    {
      up, down := [], [];
    }

    function Contains(floor: int): (b: bool)
      reads this
      ensures b <==> floor in State().Pending()
    {
      floor in up || floor in down
    }

    /** Enqueues the request's floor; returns false, changing nothing, when
        the floor is already pending. */
    method Submit(request: Request, currentFloor: int) returns (accepted: bool)
      requires Valid()
      modifies this
      ensures Valid()
      ensures accepted == !old(State()).Contains(request.floor)
      ensures State() == old(State()).Submit(request, currentFloor)
    {
      var floor := request.floor;
      if Contains(floor) {
        return false;
      }
      var desired := request.DesiredDirection();
      if request.Type() == Hall && desired.IsMoving() {
        if desired == Up && floor >= currentFloor {
          accepted := floor !in up;
          up := Insert(up, floor);
          return;
        }
        if desired == Down && floor <= currentFloor {
          accepted := floor !in down;
          down := Insert(down, floor);
          return;
        }
      }
      if floor >= currentFloor {
        accepted := floor !in up;
        up := Insert(up, floor);
        return;
      }
      accepted := floor !in down;
      down := Insert(down, floor);
    }

    /** Removes the floor from whichever queue holds it; reports whether it
        was pending. */
    method Consume(floor: int) returns (removed: bool)
      requires Valid()
      modifies this
      ensures Valid()
      ensures removed == old(State()).Contains(floor)
      ensures State() == old(State()).Consume(floor)
    {
      removed := floor in up;
      if removed {
        up := Remove(up, floor);
        assert floor !in down by {
          assert floor in Elems(old(up));
        }
      } else {
        removed := floor in down;
        if removed {
          down := Remove(down, floor);
        }
      }
    }

    /** Moves the up-queue floors below the cab to the down queue, then the
        down-queue floors at or above the cab to the up queue. */
    method Rebalance(currentFloor: int)
      requires Valid()
      modifies this
      ensures Valid()
      ensures State() == old(State()).Rebalance(currentFloor)
    {
      var below := Below(up, currentFloor);
      MoveBelowDown(State(), currentFloor);
      if below != [] {
        up, down := AtOrAbove(up, currentFloor), Union(down, below);
      }
      var above := AtOrAbove(down, currentFloor);
      MoveAboveUp(State(), currentFloor);
      if above != [] {
        up, down := Union(up, above), Below(down, currentFloor);
      }
      SplitDeterminesQueues(State(), old(State()).Rebalance(currentFloor), currentFloor);
    }
  }
}
