/** The elevator cab as the object the controller's callers hold: fields
    updated in place by each tick and each call, and an owned Scheduler.
    Every method is proved to have exactly the effect the matching function
    of module Cabs describes, and the public methods keep the invariant
    Consistent. */
module Elevators {
  import opened Directions
  import opened Failures
  import opened Requests
  import opened Scheduling
  import opened Cabs
  import CabProperties

  class Elevator {
    const minFloor: int
    const maxFloor: int
    const scheduler: Scheduler

    var currentFloor: int
    var mode: Mode
    var direction: Direction
    var scanDirection: Direction
    var doorState: DoorState
    var doorTimer: nat

    function Floors(): Building {
      Building(minFloor, maxFloor)
    }

    /** The cab's whole state as a value, the scheduler's queues included. */
    function State(): Cab
      reads this, scheduler
    {
      Cab(currentFloor, mode, direction, scanDirection, doorState, doorTimer, scheduler.State())
    }

    predicate Valid()
      reads this, scheduler
    {
      Consistent(Floors(), State())
    }

    constructor (minFloor: int, maxFloor: int)
      requires CheckConfiguration(minFloor, maxFloor).Pass?
      ensures this.minFloor == minFloor && this.maxFloor == maxFloor
      ensures Valid() && fresh(scheduler)
      ensures State() == Initial(Floors())
    {
      this.minFloor := minFloor;
      this.maxFloor := maxFloor;
      scheduler := new Scheduler();
      currentFloor := minFloor;
      mode := Mode.Idle;
      direction := Direction.Idle;
      scanDirection := Up;
      doorState := Closed;
      doorTimer := 0;
    }

    /** Elevator(minFloor, maxFloor), with its argument checks. */
    static method Create(minFloor: int, maxFloor: int) returns (r: Result<Elevator>)
      ensures r.Err? <==> CheckConfiguration(minFloor, maxFloor).Fail?
      ensures r.Err? ==> r.error == CheckConfiguration(minFloor, maxFloor).error
      ensures r.Ok? ==> fresh(r.value) && fresh(r.value.scheduler) && r.value.Valid()
                        && r.value.Floors() == Building(minFloor, maxFloor)
                        && r.value.State() == Initial(r.value.Floors())
    {
      var check := CheckConfiguration(minFloor, maxFloor);
      if check.Fail? {
        return Err(check.error);
      }
      var e := new Elevator(minFloor, maxFloor);
      r := Ok(e);
    }

    /** Elevator(totalFloors): floors 1 to totalFloors. */
    static method CreateWithFloors(totalFloors: int) returns (r: Result<Elevator>)
      ensures r.Err? <==> totalFloors < DefaultMinFloor
      ensures r.Err? ==> r.error == MaxFloorBelowMinFloor
      ensures r.Ok? ==> fresh(r.value) && fresh(r.value.scheduler) && r.value.Valid()
                        && r.value.Floors() == Building(DefaultMinFloor, totalFloors)
                        && r.value.State() == Initial(r.value.Floors())
    {
      r := Create(DefaultMinFloor, totalFloors);
    }

    /** Elevator(): floors 1 to 10. */
    static method CreateDefault() returns (e: Elevator)
      ensures fresh(e) && fresh(e.scheduler) && e.Valid()
      ensures e.Floors() == Building(DefaultMinFloor, DefaultFloorCount)
      ensures e.State() == Initial(e.Floors())
    {
      var r := CreateWithFloors(DefaultFloorCount);
      e := r.value;
    }

    method HallCall(floor: int, callDirection: Direction) returns (outcome: Outcome)
      requires Valid()
      modifies this, scheduler
      ensures Valid()
      ensures var res := Cabs.HallCall(Floors(), old(State()), floor, callDirection);
        && (res.Err? ==> outcome == Fail(res.error) && State() == old(State()))
        && (res.Ok? ==> outcome == Pass && State() == res.value)
    {
      if callDirection == Direction.Idle {
        return Fail(IdleHallDirection);
      }
      var request := NewHallCall(floor, callDirection);
      if request.Err? {
        return Fail(request.error);
      }
      outcome := Enqueue(request.value);
    }

    method CarCall(floor: int) returns (outcome: Outcome)
      requires Valid()
      modifies this, scheduler
      ensures Valid()
      ensures var res := Cabs.CarCall(Floors(), old(State()), floor);
        && (res.Err? ==> outcome == Fail(res.error) && State() == old(State()))
        && (res.Ok? ==> outcome == Pass && State() == res.value)
    {
      var request := NewCarCall(floor);
      if request.Err? {
        return Fail(request.error);
      }
      outcome := Enqueue(request.value);
    }

    method Enqueue(request: Request) returns (outcome: Outcome)
      requires Valid()
      modifies this, scheduler
      ensures Valid()
      ensures var res := Cabs.Enqueue(Floors(), old(State()), request);
        && (res.Err? ==> outcome == Fail(res.error) && State() == old(State()))
        && (res.Ok? ==> outcome == Pass && State() == res.value)
    {
      outcome := ValidateFloor(Floors(), request.floor);
      if outcome.Fail? {
        return;
      }
      var added := scheduler.Submit(request, currentFloor);
      if added {
        TryStartMovement();
      }
      CabProperties.EnqueuePreservesConsistency(Floors(), old(State()), request);
    }

    /** Advances the simulation by one discrete step. */
    method Tick()
      requires Valid()
      modifies this, scheduler
      ensures Valid()
      ensures State() == Cabs.Tick(Floors(), old(State()))
    {
      scheduler.Rebalance(currentFloor);
      match mode {
        case Idle => HandleIdle();
        case MovingUp => MoveUp();
        case MovingDown => MoveDown();
        case DoorOpening => AdvanceDoorCycle();
        case DoorOpen => AdvanceDoorCycle();
        case DoorClosing => AdvanceDoorCycle();
      }
      CabProperties.TickPreservesConsistency(Floors(), old(State()));
    }

    method HandleIdle()
      requires scheduler.Valid() && mode == Mode.Idle
      modifies this, scheduler
      ensures State() == Cabs.HandleIdle(old(State()))
    {
      var consumed := scheduler.Consume(currentFloor);
      if consumed {
        BeginDoorCycle();
        return;
      }
      var next := scheduler.State().PreferredDirection(currentFloor, scanDirection);
      if next != Direction.Idle {
        SwitchTo(next);
      }
    }

    method MoveUp()
      requires scheduler.Valid() && mode == MovingUp
      modifies this, scheduler
      ensures State() == Cabs.MoveUp(Floors(), old(State()))
    {
      ghost var c := State();
      CabProperties.MoveUpDecides(Floors(), c);
      var consumed := scheduler.Consume(currentFloor);
      if consumed {
        BeginDoorCycle();
        assert State() == StopHere(c);
        return;
      }
      if currentFloor >= maxFloor {
        SwitchTo(Down);
        assert State() == Cabs.SwitchTo(c, Down);
        return;
      }
      currentFloor := currentFloor + 1;
      ghost var next := State();
      assert next == c.(floor := c.floor + 1);
      consumed := scheduler.Consume(currentFloor);
      if consumed {
        BeginDoorCycle();
        assert State() == StopHere(next);
        return;
      }
      if !scheduler.State().HasUpRequestsAhead(currentFloor) {
        var preferred := scheduler.State().PreferredDirection(currentFloor, Down);
        SwitchTo(preferred);
        assert State() == Cabs.SwitchTo(next, c.queues.PreferredDirection(next.floor, Down));
      } else {
        assert State() == next;
      }
    }

    method MoveDown()
      requires scheduler.Valid() && mode == MovingDown
      modifies this, scheduler
      ensures State() == Cabs.MoveDown(Floors(), old(State()))
    {
      ghost var c := State();
      CabProperties.MoveDownDecides(Floors(), c);
      var consumed := scheduler.Consume(currentFloor);
      if consumed {
        BeginDoorCycle();
        assert State() == StopHere(c);
        return;
      }
      if currentFloor <= minFloor {
        SwitchTo(Up);
        assert State() == Cabs.SwitchTo(c, Up);
        return;
      }
      currentFloor := currentFloor - 1;
      ghost var next := State();
      assert next == c.(floor := c.floor - 1);
      consumed := scheduler.Consume(currentFloor);
      if consumed {
        BeginDoorCycle();
        assert State() == StopHere(next);
        return;
      }
      if !scheduler.State().HasDownRequestsBelow(currentFloor) {
        var preferred := scheduler.State().PreferredDirection(currentFloor, Up);
        SwitchTo(preferred);
        assert State() == Cabs.SwitchTo(next, c.queues.PreferredDirection(next.floor, Up));
      } else {
        assert State() == next;
      }
    }

    method AdvanceDoorCycle()
      requires scheduler.Valid() && mode.IsDoorMode()
      modifies this
      ensures State() == Cabs.AdvanceDoorCycle(old(State()))
    {
      if doorTimer > 0 {
        doorTimer := doorTimer - 1;
      }
      if doorTimer > 0 {
        return;
      }
      match mode {
        case DoorOpening =>
          doorState := Open;
          mode := DoorOpen;
          doorTimer := DoorOpenHoldTicks;
        case DoorOpen =>
          doorState := Closing;
          mode := DoorClosing;
          doorTimer := DoorStageTicks;
        case DoorClosing =>
          doorState := Closed;
          var next := scheduler.State().PreferredDirection(currentFloor, scanDirection);
          SwitchTo(next);
      }
    }

    method BeginDoorCycle()
      modifies this
      ensures State() == Cabs.BeginDoorCycle(old(State()))
    {
      doorState := Opening;
      mode := DoorOpening;
      doorTimer := DoorStageTicks;
      direction := Direction.Idle;
    }

    method TryStartMovement()
      requires scheduler.Valid()
      modifies this
      ensures State() == Cabs.TryStartMovement(old(State()))
    {
      if mode != Mode.Idle || doorState != Closed {
        return;
      }
      var next := scheduler.State().PreferredDirection(currentFloor, scanDirection);
      if next != Direction.Idle {
        SwitchTo(next);
      }
    }

    method SwitchTo(next: Direction)
      modifies this
      ensures State() == Cabs.SwitchTo(old(State()), next)
    {
      if next == Direction.Idle {
        direction := Direction.Idle;
        mode := Mode.Idle;
        return;
      }
      direction := next;
      scanDirection := next;
      mode := if next == Up then MovingUp else MovingDown;
    }
  }
}
