/** The elevator cab as a value: its position, finite-state-machine mode,
    door, door countdown and scheduler queues, and the functions that say
    what one tick and one call submission do to it. The class in module
    Elevators performs the same steps in place and is proved against these
    functions. */
module Cabs {
  import opened Directions
  import opened Failures
  import opened Requests
  import opened Scheduling

  const DefaultMinFloor: int := 1
  const DefaultFloorCount: int := 10
  /** Ticks the door spends opening and closing. */
  const DoorStageTicks: nat := 1
  /** Ticks the door is held open. */
  const DoorOpenHoldTicks: nat := 1

  datatype Mode = Idle | MovingUp | MovingDown | DoorOpening | DoorOpen | DoorClosing {
    predicate IsDoorMode() {
      this == DoorOpening || this == DoorOpen || this == DoorClosing
    }
  }

  datatype DoorState = Open | Closed | Opening | Closing

  /** The served floor range [minFloor, maxFloor]. */
  datatype Building = Building(minFloor: int, maxFloor: int) {
    predicate Valid() {
      1 <= minFloor <= maxFloor
    }

    predicate Serves(floor: int) {
      minFloor <= floor <= maxFloor
    }
  }

  datatype Cab = Cab(floor: int, mode: Mode, direction: Direction, scan: Direction,
                     door: DoorState, timer: nat, queues: Queues)

  /** The limit of the door countdown in a door mode. */
  function StageTicks(m: Mode): nat {
    if m == DoorOpen then DoorOpenHoldTicks else DoorStageTicks
  }

  /** The cab is inside a valid building, its queues are ordered and
      disjoint, every pending floor is in the building, and the sweep
      direction is UP or DOWN. */
  predicate Placed(b: Building, c: Cab) {
    && b.Valid()
    && b.Serves(c.floor)
    && c.queues.Valid()
    && (forall f :: f in c.queues.Pending() ==> b.Serves(f))
    && c.scan.IsMoving()
  }

  /** Mode, door and direction agree, the door countdown runs exactly in the
      door modes, and a moving cab sweeps the way it moves. */
  predicate Agrees(c: Cab) {
    && (c.mode == DoorOpening <==> c.door == Opening)
    && (c.mode == DoorOpen <==> c.door == Open)
    && (c.mode == DoorClosing <==> c.door == Closing)
    && (c.mode == MovingUp <==> c.direction == Up)
    && (c.mode == MovingDown <==> c.direction == Down)
    && (c.direction.IsMoving() ==> c.scan == c.direction)
    && (if c.mode.IsDoorMode() then 1 <= c.timer <= StageTicks(c.mode) else c.timer == 0)
  }

  /** The invariant of the cab. */
  predicate Consistent(b: Building, c: Cab) {
    Placed(b, c) && Agrees(c)
  }

  /** The constructor's argument checks, in the order the constructor makes them. */
  function CheckConfiguration(minFloor: int, maxFloor: int): (o: Outcome)
    ensures o.Pass? <==> Building(minFloor, maxFloor).Valid()
    ensures maxFloor < minFloor ==> o == Fail(MaxFloorBelowMinFloor)
    ensures minFloor <= maxFloor && o.Fail? ==> o.error == MinFloorNotPositive
  {
    if maxFloor < minFloor then Fail(MaxFloorBelowMinFloor)
    else if minFloor < 1 then Fail(MinFloorNotPositive)
    else Pass
  }

  /** A new cab rests at the lowest floor, idle, door closed, with an
      upward sweep preference and no pending floors. */
  function Initial(b: Building): (c: Cab)
    requires b.Valid()
    ensures Consistent(b, c) && c.floor == b.minFloor
    ensures c.mode == Mode.Idle && c.door == Closed && c.direction == Direction.Idle
    ensures c.scan == Up && c.timer == 0 && c.queues.Pending() == {}
  {
    Cab(b.minFloor, Mode.Idle, Direction.Idle, Up, Closed, 0, Queues([], []))
  }

  function ValidateFloor(b: Building, floor: int): (o: Outcome)
    ensures o.Pass? <==> b.Serves(floor)
    ensures o.Fail? ==> o.error == FloorOutOfRange
  {
    if floor < b.minFloor || floor > b.maxFloor then Fail(FloorOutOfRange) else Pass
  }

  /** Sets mode and direction for the next direction; a moving direction
      also becomes the sticky sweep direction. */
  function SwitchTo(c: Cab, next: Direction): (d: Cab)
    ensures d.floor == c.floor && d.queues == c.queues && d.door == c.door && d.timer == c.timer
    ensures !d.mode.IsDoorMode() && d.direction == next
    ensures d.mode.MovingUp? <==> next.Up?
    ensures d.mode.MovingDown? <==> next.Down?
    ensures d.scan == if next.IsMoving() then next else c.scan
  {
    if next == Direction.Idle then c.(direction := Direction.Idle, mode := Mode.Idle)
    else c.(direction := next, scan := next, mode := if next == Up then MovingUp else MovingDown)
  }

  /** Starts the door cycle: the door begins to open and the countdown is
      set to one stage; position, sweep direction and queues are kept. */
  function BeginDoorCycle(c: Cab): (d: Cab)
    ensures d.mode == DoorOpening && d.door == Opening && d.timer == DoorStageTicks
    ensures d.direction == Direction.Idle
    ensures d.floor == c.floor && d.scan == c.scan && d.queues == c.queues
  {
    c.(door := Opening, mode := DoorOpening, timer := DoorStageTicks, direction := Direction.Idle)
  }

  /** Serves the current floor: consumes it and starts the door cycle. */
  function StopHere(c: Cab): (d: Cab)
    requires c.queues.Valid()
    ensures d.queues.Valid()
    ensures d.floor == c.floor && d.scan == c.scan
    ensures d.mode == DoorOpening && d.door == Opening && d.direction == Direction.Idle
    ensures d.timer == DoorStageTicks
    ensures d.queues.Pending() == c.queues.Pending() - {c.floor}
    ensures d.queues == c.queues.Consume(c.floor)
  {
    BeginDoorCycle(c.(queues := c.queues.Consume(c.floor)))
  }

  /** An idle cab serves a pending floor under it first; otherwise it sets
      off in the direction the scheduler prefers, and stays idle only while
      neither queue has work on its side of the cab. */
  function HandleIdle(c: Cab): (d: Cab)
    requires c.queues.Valid() && c.mode == Mode.Idle
    ensures d.queues.Valid() && d.floor == c.floor
    ensures d.mode == DoorOpening ==>
      c.floor in c.queues.Pending() && d.queues.Pending() == c.queues.Pending() - {c.floor}
    ensures d.mode != DoorOpening ==> d.queues == c.queues
    ensures c.queues.Contains(c.floor) ==> d == StopHere(c)
    ensures d.mode == Mode.Idle <==>
      (forall x :: x in c.queues.up ==> x < c.floor) && (forall x :: x in c.queues.down ==> x > c.floor)
    ensures d.mode == Mode.Idle ==> d == c
    ensures d.mode != Mode.Idle && d.mode != DoorOpening ==>
      d == SwitchTo(c, c.queues.PreferredDirection(c.floor, c.scan))
  {
    if c.queues.Contains(c.floor) then StopHere(c)
    else
      var next := c.queues.PreferredDirection(c.floor, c.scan);
      if next != Direction.Idle then SwitchTo(c, next) else c
  }

  /** One tick of a cab moving up; CabProperties.MoveUpDecides states
      which step it takes in each case. */
  function MoveUp(b: Building, c: Cab): (d: Cab)
    requires c.queues.Valid() && c.mode == MovingUp
    ensures d.queues.Valid()
    ensures c.floor <= d.floor <= c.floor + 1
    ensures d.floor > c.floor ==> c.floor < b.maxFloor
    ensures d.mode == DoorOpening ==>
      d.floor in c.queues.Pending() && d.queues.Pending() == c.queues.Pending() - {d.floor}
    ensures d.mode != DoorOpening ==> d.queues == c.queues
  {
    if c.queues.Contains(c.floor) then StopHere(c)
    else if c.floor >= b.maxFloor then SwitchTo(c, Down)
    else
      var c1 := c.(floor := c.floor + 1);
      if c1.queues.Contains(c1.floor) then StopHere(c1)
      else if !c1.queues.HasUpRequestsAhead(c1.floor) then
        SwitchTo(c1, c1.queues.PreferredDirection(c1.floor, Down))
      else c1
  }

  /** One tick of a cab moving down; CabProperties.MoveDownDecides states
      which step it takes in each case. */
  function MoveDown(b: Building, c: Cab): (d: Cab)
    requires c.queues.Valid() && c.mode == MovingDown
    ensures d.queues.Valid()
    ensures c.floor - 1 <= d.floor <= c.floor
    ensures d.floor < c.floor ==> c.floor > b.minFloor
    ensures d.mode == DoorOpening ==>
      d.floor in c.queues.Pending() && d.queues.Pending() == c.queues.Pending() - {d.floor}
    ensures d.mode != DoorOpening ==> d.queues == c.queues
  {
    if c.queues.Contains(c.floor) then StopHere(c)
    else if c.floor <= b.minFloor then SwitchTo(c, Up)
    else
      var c1 := c.(floor := c.floor - 1);
      if c1.queues.Contains(c1.floor) then StopHere(c1)
      else if !c1.queues.HasDownRequestsBelow(c1.floor) then
        SwitchTo(c1, c1.queues.PreferredDirection(c1.floor, Up))
      else c1
  }

  /** One tick of the door countdown; at zero the door moves to its next
      stage, and once closed the cab chooses its next direction. */
  function AdvanceDoorCycle(c: Cab): (d: Cab)
    requires c.queues.Valid() && c.mode.IsDoorMode()
    ensures d.queues == c.queues && d.floor == c.floor
    ensures d.mode == DoorOpening ==> c.mode == DoorOpening
    // more than one tick left: only the countdown moves
    ensures c.timer > 1 ==> d == c.(timer := c.timer - 1)
    // the last tick of a stage: the door moves on to the next stage
    ensures c.timer <= 1 && c.mode == DoorOpening ==>
      d == c.(timer := DoorOpenHoldTicks, door := Open, mode := DoorOpen)
    ensures c.timer <= 1 && c.mode == DoorOpen ==>
      d == c.(timer := DoorStageTicks, door := Closing, mode := DoorClosing)
    // the door has closed: the countdown stops at zero and the cab takes the
    // scheduler's direction
    ensures c.timer <= 1 && c.mode == DoorClosing ==>
      d == SwitchTo(c.(timer := 0, door := Closed),
                    c.queues.PreferredDirection(c.floor, c.scan))
  {
    var t := if c.timer > 0 then c.timer - 1 else c.timer;
    if t > 0 then c.(timer := t)
    else match c.mode
      case DoorOpening => c.(timer := DoorOpenHoldTicks, door := Open, mode := DoorOpen)
      case DoorOpen => c.(timer := DoorStageTicks, door := Closing, mode := DoorClosing)
      case DoorClosing =>
        var closed := c.(timer := t, door := Closed);
        SwitchTo(closed, closed.queues.PreferredDirection(closed.floor, closed.scan))
  }

  /** One discrete step: rebalance the queues at the current floor, then
      run the transition of the current mode. */
  function Tick(b: Building, c: Cab): (d: Cab)
    requires c.queues.Valid()
    ensures d.queues.Valid()
    ensures -1 <= d.floor - c.floor <= 1
    ensures b.Serves(c.floor) ==> b.Serves(d.floor)
    ensures d.mode == DoorOpening && c.mode != DoorOpening ==>
      d.floor in c.queues.Pending() && d.queues.Pending() == c.queues.Pending() - {d.floor}
    ensures d.mode != DoorOpening ==> d.queues.Pending() == c.queues.Pending()
  {
    var r := c.(queues := c.queues.Rebalance(c.floor));
    match r.mode
    case Idle => HandleIdle(r)
    case MovingUp => MoveUp(b, r)
    case MovingDown => MoveDown(b, r)
    case _ => AdvanceDoorCycle(r)
  }

  /** A fresh call may start an idle, closed cab moving at once. */
  function TryStartMovement(c: Cab): (d: Cab)
    requires c.queues.Valid()
    ensures d.queues == c.queues
    ensures c.mode != Mode.Idle || c.door != Closed ==> d == c
    ensures c.mode == Mode.Idle && c.door == Closed ==>
      (d.mode == Mode.Idle <==>
        (forall x :: x in c.queues.up ==> x < c.floor) && (forall x :: x in c.queues.down ==> x > c.floor))
      && (d.mode == Mode.Idle ==> d == c)
      && (d.mode != Mode.Idle ==> d == SwitchTo(c, c.queues.PreferredDirection(c.floor, c.scan)))
  {
    if c.mode != Mode.Idle || c.door != Closed then c
    else
      var next := c.queues.PreferredDirection(c.floor, c.scan);
      if next != Direction.Idle then SwitchTo(c, next) else c
  }

  /** Validates the request's floor against the building, submits it, and
      on acceptance tries to start moving. */
  function Enqueue(b: Building, c: Cab, r: Request): (res: Result<Cab>)
    requires c.queues.Valid()
    ensures res.Err? <==> !b.Serves(r.floor)
    ensures res.Err? ==> res.error == FloorOutOfRange
    ensures res.Ok? ==> res.value.queues == c.queues.Submit(r, c.floor)
                        && res.value.queues.Pending() == c.queues.Pending() + {r.floor}
                        && res.value.floor == c.floor
    ensures b.Serves(r.floor) && c.queues.Contains(r.floor) ==> res == Ok(c)
    ensures res.Ok? && !c.queues.Contains(r.floor) ==>
      res.value == TryStartMovement(c.(queues := res.value.queues))
  {
    match ValidateFloor(b, r.floor)
    case Fail(e) => Err(e)
    case Pass =>
      var accepted := !c.queues.Contains(r.floor);
      var d := c.(queues := c.queues.Submit(r, c.floor));
      Ok(if accepted then TryStartMovement(d) else d)
  }

  /** A hall call: the direction must be UP or DOWN, the floor positive and
      inside the building. */
  function HallCall(b: Building, c: Cab, floor: int, direction: Direction): (res: Result<Cab>)
    requires b.Valid() && c.queues.Valid()
    ensures res.Err? <==> direction == Direction.Idle || !b.Serves(floor)
    ensures direction == Direction.Idle ==> res == Err(IdleHallDirection)
    ensures direction != Direction.Idle && floor < 1 ==> res == Err(FloorNotPositive)
    ensures direction != Direction.Idle && floor >= 1 && !b.Serves(floor) ==> res == Err(FloorOutOfRange)
    ensures res.Ok? ==> res.value.queues.Pending() == c.queues.Pending() + {floor}
    ensures res.Ok? ==> res == Enqueue(b, c, Request.HallCall(floor, direction))
  {
    if direction == Direction.Idle then Err(IdleHallDirection)
    else match NewHallCall(floor, direction)
      case Err(e) => Err(e)
      case Ok(r) => Enqueue(b, c, r)
  }

  /** A car call: the floor must be positive and inside the building. */
  function CarCall(b: Building, c: Cab, floor: int): (res: Result<Cab>)
    requires b.Valid() && c.queues.Valid()
    ensures res.Err? <==> !b.Serves(floor)
    ensures floor < 1 ==> res == Err(FloorNotPositive)
    ensures floor >= 1 && !b.Serves(floor) ==> res == Err(FloorOutOfRange)
    ensures res.Ok? ==> res.value.queues.Pending() == c.queues.Pending() + {floor}
    ensures res.Ok? ==> res == Enqueue(b, c, Request.CarCall(floor))
  {
    match NewCarCall(floor)
    case Err(e) => Err(e)
    case Ok(r) => Enqueue(b, c, r)
  }
}
