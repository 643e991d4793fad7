/** What the cab's transition functions promise: the invariant is kept by
    every tick and every accepted call, the cab moves at most one floor per
    tick, every stop serves a pending floor, the cab turns round at the
    building's limits and the door runs through its stages in order. */
module CabProperties {
  import opened Directions
  import opened Requests
  import opened OrderedFloors
  import opened Scheduling
  import opened Cabs

  lemma RebalanceKeepsPlacement(b: Building, c: Cab)
    requires Placed(b, c)
    ensures Placed(b, c.(queues := c.queues.Rebalance(c.floor)))
  {
  }

  lemma StopHereIsConsistent(b: Building, c: Cab)
    requires Placed(b, c)
    ensures Consistent(b, StopHere(c))
  {
  }

  /** A closed, resting cab may switch to any direction the scheduler
      prefers. */
  lemma SwitchToIsConsistent(b: Building, c: Cab, next: Direction)
    requires Placed(b, c) && c.door == Closed && c.timer == 0
    ensures Consistent(b, SwitchTo(c, next))
  {
  }

  lemma HandleIdlePreservesConsistency(b: Building, c: Cab)
    requires Consistent(b, c) && c.mode == Mode.Idle
    ensures Consistent(b, HandleIdle(c))
  {
    if c.queues.Contains(c.floor) {
      StopHereIsConsistent(b, c);
    } else {
      SwitchToIsConsistent(b, c, c.queues.PreferredDirection(c.floor, c.scan));
    }
  }

  /** A cab moving up serves the floor under it if it is pending; otherwise
      it turns round at the top, or rises one floor and serves that floor if
      it is pending, keeps rising while the up queue has a floor above, and
      else turns to the scheduler's choice with DOWN preferred. */
  lemma MoveUpDecides(b: Building, c: Cab)
    requires c.queues.Valid() && c.mode == MovingUp
    ensures var d := MoveUp(b, c);
      && (c.queues.Contains(c.floor) ==> d == StopHere(c))
      && (!c.queues.Contains(c.floor) && c.floor >= b.maxFloor ==> d == SwitchTo(c, Down))
      && (!c.queues.Contains(c.floor) && c.floor < b.maxFloor ==> d.floor == c.floor + 1)
    ensures var d := MoveUp(b, c);
      d.floor == c.floor + 1 ==>
        && (d.mode == DoorOpening <==> d.floor in c.queues.Pending())
        && (d.mode == DoorOpening ==> d == StopHere(c.(floor := d.floor)))
    ensures var d := MoveUp(b, c);
      d.floor == c.floor + 1 && d.mode != DoorOpening ==>
        && (d.mode == MovingUp <==> exists x :: x in c.queues.up && x > d.floor)
        && (d.mode == MovingUp ==> d == c.(floor := d.floor))
        && (d.mode != MovingUp ==>
              d == SwitchTo(c.(floor := d.floor), c.queues.PreferredDirection(d.floor, Down)))
  {
  }

  /** The mirror image for a cab moving down: it turns round at the bottom,
      keeps descending while the down queue has a floor below, and else
      turns to the scheduler's choice with UP preferred. */
  lemma MoveDownDecides(b: Building, c: Cab)
    requires c.queues.Valid() && c.mode == MovingDown
    ensures var d := MoveDown(b, c);
      && (c.queues.Contains(c.floor) ==> d == StopHere(c))
      && (!c.queues.Contains(c.floor) && c.floor <= b.minFloor ==> d == SwitchTo(c, Up))
      && (!c.queues.Contains(c.floor) && c.floor > b.minFloor ==> d.floor == c.floor - 1)
    ensures var d := MoveDown(b, c);
      d.floor == c.floor - 1 ==>
        && (d.mode == DoorOpening <==> d.floor in c.queues.Pending())
        && (d.mode == DoorOpening ==> d == StopHere(c.(floor := d.floor)))
    ensures var d := MoveDown(b, c);
      d.floor == c.floor - 1 && d.mode != DoorOpening ==>
        && (d.mode == MovingDown <==> exists x :: x in c.queues.down && x < d.floor)
        && (d.mode == MovingDown ==> d == c.(floor := d.floor))
        && (d.mode != MovingDown ==>
              d == SwitchTo(c.(floor := d.floor), c.queues.PreferredDirection(d.floor, Up)))
  {
  }

  lemma MoveUpPreservesConsistency(b: Building, c: Cab)
    requires Consistent(b, c) && c.mode == MovingUp
    ensures Consistent(b, MoveUp(b, c))
  {
    if c.queues.Contains(c.floor) {
      StopHereIsConsistent(b, c);
    } else if c.floor >= b.maxFloor {
      SwitchToIsConsistent(b, c, Down);
    } else {
      var c1 := c.(floor := c.floor + 1);
      assert Placed(b, c1);
      if c1.queues.Contains(c1.floor) {
        StopHereIsConsistent(b, c1);
      } else if !c1.queues.HasUpRequestsAhead(c1.floor) {
        SwitchToIsConsistent(b, c1, c1.queues.PreferredDirection(c1.floor, Down));
      }
    }
  }

  lemma MoveDownPreservesConsistency(b: Building, c: Cab)
    requires Consistent(b, c) && c.mode == MovingDown
    ensures Consistent(b, MoveDown(b, c))
  {
    if c.queues.Contains(c.floor) {
      StopHereIsConsistent(b, c);
    } else if c.floor <= b.minFloor {
      SwitchToIsConsistent(b, c, Up);
    } else {
      var c1 := c.(floor := c.floor - 1);
      assert Placed(b, c1);
      if c1.queues.Contains(c1.floor) {
        StopHereIsConsistent(b, c1);
      } else if !c1.queues.HasDownRequestsBelow(c1.floor) {
        SwitchToIsConsistent(b, c1, c1.queues.PreferredDirection(c1.floor, Up));
      }
    }
  }

  lemma AdvanceDoorCyclePreservesConsistency(b: Building, c: Cab)
    requires Consistent(b, c) && c.mode.IsDoorMode()
    ensures Consistent(b, AdvanceDoorCycle(c))
  {
    if c.mode == DoorClosing && c.timer == 1 {
      var closed := c.(timer := 0, door := Closed);
      SwitchToIsConsistent(b, closed, closed.queues.PreferredDirection(closed.floor, closed.scan));
    }
  }

  lemma TickPreservesConsistency(b: Building, c: Cab)
    requires Consistent(b, c)
    ensures Consistent(b, Tick(b, c))
  {
    var r := c.(queues := c.queues.Rebalance(c.floor));
    RebalanceKeepsPlacement(b, c);
    assert Consistent(b, r);
    match r.mode
    case Idle => HandleIdlePreservesConsistency(b, r);
    case MovingUp => MoveUpPreservesConsistency(b, r);
    case MovingDown => MoveDownPreservesConsistency(b, r);
    case _ => AdvanceDoorCyclePreservesConsistency(b, r);
  }

  /** Moving up at the top floor with nothing to serve there, the cab turns
      round without moving. */
  lemma TickReversesAtTop(b: Building, c: Cab)
    requires Consistent(b, c)
    requires c.mode == MovingUp && c.floor == b.maxFloor && !c.queues.Contains(c.floor)
    ensures Tick(b, c).mode == MovingDown && Tick(b, c).direction == Down
    ensures Tick(b, c).floor == c.floor && Tick(b, c).scan == Down
  {
  }

  /** Moving down at the bottom floor with nothing to serve there, the cab
      turns round without moving. */
  lemma TickReversesAtBottom(b: Building, c: Cab)
    requires Consistent(b, c)
    requires c.mode == MovingDown && c.floor == b.minFloor && !c.queues.Contains(c.floor)
    ensures Tick(b, c).mode == MovingUp && Tick(b, c).direction == Up
    ensures Tick(b, c).floor == c.floor && Tick(b, c).scan == Up
  {
  }

  /** A tick depends only on which floors are pending, not on how they are
      split between the up and the down queue: the queues are rebalanced at
      the current floor before the mode's handler runs. */
  lemma TickSeesOnlyPending(b: Building, c: Cab, c': Cab)
    requires c.queues.Valid() && c'.queues.Valid()
    requires c' == c.(queues := c'.queues) && c'.queues.Pending() == c.queues.Pending()
    ensures Tick(b, c') == Tick(b, c)
  {
    SplitDeterminesQueues(c.queues.Rebalance(c.floor), c'.queues.Rebalance(c.floor), c.floor);
  }

  /** While the door countdown has more than one tick left, a tick only
      counts down. This is the general countdown path: with both door
      constants equal to 1, no consistent cab has such a countdown, so the
      path is only reached by a cab built with a longer one. */
  lemma DoorCountdown(b: Building, c: Cab)
    requires c.queues.Valid() && c.mode.IsDoorMode() && c.timer > 1
    ensures Tick(b, c) == c.(timer := c.timer - 1, queues := c.queues.Rebalance(c.floor))
  {
  }

  /** From the start of a stop, the door is OPEN after one tick, CLOSING
      after two and CLOSED after three, at the same floor, with no pending
      floor gained or lost. */
  lemma DoorCycleOrder(b: Building, c: Cab)
    requires Consistent(b, c) && c.mode == DoorOpening
    ensures Tick(b, c).mode == DoorOpen && Tick(b, c).door == Open
    ensures Tick(b, Tick(b, c)).mode == DoorClosing && Tick(b, Tick(b, c)).door == Closing
    ensures Tick(b, Tick(b, Tick(b, c))).door == Closed
    ensures !Tick(b, Tick(b, Tick(b, c))).mode.IsDoorMode()
    ensures Tick(b, Tick(b, Tick(b, c))).floor == c.floor
    ensures Tick(b, Tick(b, Tick(b, c))).queues.Pending() == c.queues.Pending()
  {
  }

  /** An idle cab with nothing pending stays exactly as it is. */
  lemma IdleWithoutWorkIsStable(b: Building, c: Cab)
    requires Consistent(b, c) && c.mode == Mode.Idle && c.queues.Pending() == {}
    ensures Tick(b, c) == c
  {
    ElemsEmpty(c.queues.up);
    ElemsEmpty(c.queues.down);
    var q := c.queues.Rebalance(c.floor);
    ElemsEmpty(q.up);
    ElemsEmpty(q.down);
    assert q == c.queues;
  }

  /** A new floor submitted to an idle cab with its door closed sets the cab
      moving at once: the floor joins the queue on its own side of the cab,
      so the scheduler has work to offer. */
  lemma NewCallStartsIdleCab(b: Building, c: Cab, r: Request)
    requires Consistent(b, c) && c.mode == Mode.Idle && c.door == Closed
    requires b.Serves(r.floor) && !c.queues.Contains(r.floor)
    ensures Enqueue(b, c, r).Ok?
    ensures Enqueue(b, c, r).value.mode == MovingUp || Enqueue(b, c, r).value.mode == MovingDown
  {
  }

  /** An accepted call keeps the invariant. */
  lemma EnqueuePreservesConsistency(b: Building, c: Cab, r: Request)
    requires Consistent(b, c)
    requires Enqueue(b, c, r).Ok?
    ensures Consistent(b, Enqueue(b, c, r).value)
  {
  }
}
