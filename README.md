# Single-cab elevator controller

A Dafny model of the controller of one elevator cab. The controller has two parts:

- **Scheduler.** A LOOK/SCAN scheduler keeps the pending floors in two ordered sets, the up queue and the down queue.
  - `submit` places a new floor in one of the two queues and ignores duplicates.
  - `consume` removes a floor that is being served.
  - `rebalance` moves every floor to the queue its position calls for: floors at or above the cab go in the up queue, floors below it in the down queue.
  - The queries decide the next travel direction.
- **Elevator.** A tick-driven finite-state machine.
  - Modes: idle, moving up, moving down, and the three door modes (opening, open, closing).
  - It also has a door state, a door countdown, a travel direction and a sticky sweep direction.
  - Each tick rebalances the scheduler, then runs the handler for the current mode.
  - Calls submitted from outside are checked against the building's floor range `[minFloor, maxFloor]`.

Files:

- **`Directions.dfy`, `Requests.dfy`, `Failures.dfy`.** The value types: `Direction`, the two request kinds (hall call, car call), and the errors the Java code throws as `IllegalArgumentException`. Here those errors are `Result`/`Outcome` values.
- **`OrderedFloors.dfy`.** The sorted-set operations the scheduler uses (`add`, `remove`, `headSet`, `tailSet`, `addAll`, `ceiling`, `higher`, `floor`, `lower`, `descendingSet`), over strictly ascending `seq<int>`.
- **`Scheduling.dfy`.**
  - The datatype `Queues` is the scheduler's state as a value. Its functions define what each operation does, and the lemmas state the LOOK/SCAN properties.
  - The class `Scheduler` holds the two queues in fields. Its methods update them in place the way the Java methods do, and are proved to produce exactly the `Queues` function's result.
- **`Cabs.dfy`, `CabProperties.dfy`.** The cab as a value (`Cab`) with one function per handler of `Elevator.java`, plus the invariant `Consistent`:
  - the cab's floor and every pending floor are inside the building;
  - the queues are ordered and disjoint;
  - mode and door state agree;
  - direction and mode agree;
  - the sweep direction is never IDLE;
  - the door countdown runs exactly in the door modes.

  `CabProperties.dfy` proves that every tick and every accepted call keep this invariant. It also proves the reversal at the building limits and the door-stage order.
- **`Elevators.dfy`.** The class `Elevator`, with the Java fields and an owned `Scheduler`. Each method mutates fields step by step as the Java method does, and is proved to produce `Cabs.<same name>` of the old state.
- **`Scenarios.dfy`, `ElevatorTests.dfy`.**
  - Runs of many ticks, and the floors at which the door is open after each tick (the unit tests' `collectStops`).
  - The three scenarios of `test/ElevatorTest.java`, stated as lemmas about the model.

Notes on the code:

- The door timings are the fixed constants `DOOR_STAGE_TICKS = DOOR_OPEN_HOLD_TICKS = 1` (`Elevator.java:10-11`); the model uses the same constants.
- `consume` removes a floor from the up queue, or, only when it was not there, from the down queue (`Scheduler.java:49`). `Queues.Consume` removes the floor from both queues. This is the same result because the queues are disjoint, and `Scheduler.Consume` is proved to follow the Java order and reach that result.
- The scheduler's read-only queries (`hasUpRequestsAhead`, `hasDownRequestsBelow`, `preferredDirection`, the snapshots) are the functions of `Queues` applied to the scheduler object's state; the `Elevator` methods call them that way.
- The duplicate-request test only counts the stops at floor 4 (`ElevatorTest.java:36-37`). The model proves the stronger fact that the whole stop list is `[4]`.

## Model

| member | source | states |
|---|---|---|
| Directions.Direction.Delta | src/Direction.java:21-23 | the step is 1 for UP, -1 for DOWN and 0 for IDLE: it lies in -1..1, is 0 exactly when the direction is not moving, and is positive exactly for UP |
| Directions.Direction.Opposite | src/Direction.java:28-34 | the opposite of a moving direction is the other moving direction; IDLE maps to IDLE |
| Directions.Direction.IsMoving | src/Direction.java:39-41 | UP and DOWN are moving directions, IDLE is not |
| Directions.OppositeIsInvolution | src/Direction.java:28-34 | taking the opposite twice gives the original direction |
| Directions.OppositeNegatesDelta | src/Direction.java:21-34 | the step of the opposite direction is the negated step |
| Requests.Request.Type | src/HallCall.java:27-29 | a hall call has type HALL and a car call (src/CarCall.java:22-24) has type CAR |
| Requests.Request.DesiredDirection | src/HallCall.java:32-34 | a car call desires IDLE (src/CarCall.java:27-29); a constructed hall call's direction is UP or DOWN, so a valid request desires a moving direction exactly when it is a hall call |
| Requests.Request.Equals | src/HallCall.java:37-42 | two requests are equal iff they are the same kind with the same floor and, for hall calls, the same direction (src/CarCall.java:32-37); requests of different kinds are never equal |
| Requests.NewHallCall | src/HallCall.java:10-19 | construction succeeds iff floor >= 1 and the direction is not IDLE; a floor below 1 is reported first, then an IDLE direction; the built call has the given floor and direction |
| Requests.NewCarCall | src/CarCall.java:9-14 | construction succeeds iff floor >= 1, otherwise the error is "floor not positive"; the built call has the given floor and desires IDLE |
| Requests.ValidIffConstructible | src/HallCall.java:10-19 | a request satisfies the constructors' guards iff its constructor accepts its fields and rebuilds the same value |
| Scheduling.Placement | src/Scheduler.java:29-41 | a new floor goes to the up queue only if it is at or above the cab, and to the down queue only if it is at or below; an UP hall call at or above the cab goes up; a DOWN hall call at or below goes down; at the cab's own floor only a DOWN hall call goes down |
| Scheduling.Queues.Contains | src/Scheduler.java:44-46 | true iff the floor is pending in either queue |
| Scheduling.Queues.Submit | src/Scheduler.java:23-42 | a duplicate floor leaves both queues unchanged; a new floor is added to the queue Placement chooses and nothing else changes; the queues stay ordered and disjoint |
| Scheduling.Queues.Consume | src/Scheduler.java:48-50 | the floor is pending in neither queue afterwards, every other floor stays in its queue, disjointness is kept, and a floor that was not pending changes nothing |
| Scheduling.Queues.Rebalance | src/Scheduler.java:56-69 | afterwards every up-queue floor is >= the current floor and every down-queue floor is below it; the set of pending floors is unchanged; the queues stay ordered and disjoint |
| Scheduling.Queues.HasUpRequestsAhead | src/Scheduler.java:71-73 | true iff the up queue holds a floor strictly above the current floor |
| Scheduling.Queues.HasDownRequestsBelow | src/Scheduler.java:75-77 | true iff the down queue holds a floor strictly below the current floor |
| Scheduling.Queues.HasUpRequestsAtOrAbove | src/Scheduler.java:99-101 | true iff the up queue holds a floor at or above the current floor |
| Scheduling.Queues.HasDownRequestsAtOrBelow | src/Scheduler.java:103-105 | true iff the down queue holds a floor at or below the current floor |
| Scheduling.Queues.PreferredDirection | src/Scheduler.java:83-97 | the preferred direction is kept whenever its side has work; IDLE is returned iff neither side has work; UP and DOWN are returned only when that side has work; with no preference UP wins |
| Scheduling.Queues.SnapshotUpQueue | src/Scheduler.java:107-109 | the up snapshot is strictly ascending and lists exactly the up queue |
| Scheduling.Queues.SnapshotDownQueue | src/Scheduler.java:111-113 | the down snapshot is strictly descending and lists exactly the down queue, each floor once |
| Scheduling.SplitDeterminesQueues | src/Scheduler.java:52-69 | two valid queue states with the same pending floors, both split at the same floor, are equal |
| Scheduling.RebalanceIdempotent | src/Scheduler.java:52-69 | a second rebalance at the same floor changes nothing |
| Scheduling.RebalanceSplitsAtFloor | src/Scheduler.java:56-69 | after a rebalance a pending floor is in the up queue iff it is at or above the current floor, and in the down queue iff it is below |
| Scheduling.SnapshotsListPending | src/Scheduler.java:107-113 | the two snapshots together list exactly the pending floors and share no floor |
| Scheduling.MoveBelowDown | src/Scheduler.java:57-62 | moving the up-queue floors below the cab to the down queue keeps the pending set and validity, and leaves only floors at or above the cab in the up queue; when nothing is below, the up queue already is so |
| Scheduling.MoveAboveUp | src/Scheduler.java:63-68 | with the up queue already at or above the cab, moving the down-queue floors at or above it to the up queue completes the split and keeps the pending set |
| Scheduling.Scheduler.constructor | src/Scheduler.java:13-14 | a new scheduler has two empty queues |
| Scheduling.Scheduler.Contains | src/Scheduler.java:44-46 | true iff the floor is pending in the scheduler's state |
| Scheduling.Scheduler.Submit | src/Scheduler.java:23-42 | returns true iff the floor was not pending; the fields become Queues.Submit of the old state; validity is kept |
| Scheduling.Scheduler.Consume | src/Scheduler.java:48-50 | returns true iff the floor was pending; the fields become Queues.Consume of the old state |
| Scheduling.Scheduler.Rebalance | src/Scheduler.java:56-69 | the two in-place transfers leave the fields equal to Queues.Rebalance of the old state |
| OrderedFloors.Insert | src/Scheduler.java:31-41 | TreeSet.add: the result is ascending and holds the old floors plus the new one; a present floor changes nothing |
| OrderedFloors.Remove | src/Scheduler.java:48-50 | TreeSet.remove: the result is ascending and holds the old floors minus the removed one; an absent floor changes nothing |
| OrderedFloors.Below | src/Scheduler.java:57-57 | headSet(c, false): exactly the floors below c, in order |
| OrderedFloors.AtOrAbove | src/Scheduler.java:63-63 | tailSet(c, true): exactly the floors at or above c, in order |
| OrderedFloors.Union | src/Scheduler.java:61-67 | addAll: an ascending sequence of exactly the floors of both |
| OrderedFloors.Ceiling | src/Scheduler.java:99-101 | the least floor at or above c, or none when every floor is below c |
| OrderedFloors.Higher | src/Scheduler.java:71-73 | the least floor strictly above c, or none when no floor is above c |
| OrderedFloors.Floor | src/Scheduler.java:103-105 | the greatest floor at or below c, or none when every floor is above c |
| OrderedFloors.Lower | src/Scheduler.java:75-77 | the greatest floor strictly below c, or none when no floor is below c |
| OrderedFloors.Reverse | src/Scheduler.java:111-113 | descendingSet: the same floors, strictly descending, element i is the i-th from the top |
| OrderedFloors.AscendingUnique | src/Scheduler.java:13-14 | an ordered set of floors is determined by its elements |
| Cabs.CheckConfiguration | src/Elevator.java:32-38 | the configuration is accepted iff 1 <= minFloor <= maxFloor; maxFloor < minFloor is reported first, then a non-positive minFloor |
| Cabs.Initial | src/Elevator.java:13-42 | a new cab is at minFloor, IDLE, door CLOSED, direction IDLE, sweep UP, timer 0, no pending floors, and satisfies the invariant |
| Cabs.ValidateFloor | src/Elevator.java:194-198 | a floor passes iff minFloor <= floor <= maxFloor; otherwise the error is "out of range" |
| Cabs.SwitchTo | src/Elevator.java:183-192 | the new mode is MOVING_UP iff the direction is UP and MOVING_DOWN iff it is DOWN, otherwise IDLE; a moving direction becomes the sweep direction; floor, door, timer and queues are unchanged |
| Cabs.BeginDoorCycle | src/Elevator.java:166-171 | the door starts opening: mode DOOR_OPENING, door OPENING, timer at the stage length, direction IDLE; floor, sweep direction and queues are unchanged |
| Cabs.StopHere | src/Elevator.java:89-90 | a stop consumes the current floor from the queues, so each queue loses only that floor (the queues become `Queues.Consume` at the floor), and starts the door cycle: DOOR_OPENING, door OPENING, direction IDLE, timer at the stage length, same floor |
| Cabs.HandleIdle | src/Elevator.java:88-97 | a pending floor under the idle cab always starts a stop that consumes it; otherwise the cab switches to the direction the scheduler prefers with its sweep direction as preference, and it stays idle, unchanged, exactly when neither queue has work on its side of the cab; the cab never moves and queues change only by the stop |
| Cabs.MoveUp | src/Elevator.java:99-117 | the cab rises by at most one floor, and only below maxFloor; a stop consumes the floor it stops at; otherwise the queues are unchanged (the choice made in each case is stated by CabProperties.MoveUpDecides) |
| Cabs.MoveDown | src/Elevator.java:119-137 | the cab descends by at most one floor, and only above minFloor; a stop consumes the floor it stops at; otherwise the queues are unchanged (the choice made in each case is stated by CabProperties.MoveDownDecides) |
| Cabs.AdvanceDoorCycle | src/Elevator.java:139-164 | the door countdown keeps the floor and queues; with more than one tick left it only decrements the timer; on a stage's last tick DOOR_OPENING becomes DOOR_OPEN with the hold time and DOOR_OPEN becomes DOOR_CLOSING with the stage time; DOOR_CLOSING closes the door, stops the countdown at zero and switches to the scheduler's preferred direction for the current floor and sweep |
| Cabs.Tick | src/Elevator.java:77-86 | a tick moves the cab by at most one floor and keeps it inside the building; a newly begun stop consumes exactly the floor it stops at; every other tick keeps the pending set; the handler runs on the queues rebalanced at the current floor, which CabProperties.TickSeesOnlyPending states |
| CabProperties.TickSeesOnlyPending | src/Elevator.java:77-79 | because a tick first rebalances the queues at the current floor (src/Scheduler.java:52-69), two cabs that differ only in how the same pending floors are split between the queues tick to the same cab |
| Cabs.TryStartMovement | src/Elevator.java:173-181 | a cab that is not idle or whose door is not closed is unchanged; an idle, closed cab switches to the direction the scheduler prefers with its sweep direction as preference, and stays idle, unchanged, exactly when neither queue has work on its side; the queues never change |
| Cabs.Enqueue | src/Elevator.java:56-62 | a request fails with "out of range" iff its floor is outside the building; a duplicate floor leaves the cab unchanged; a new floor is submitted to the scheduler, becomes pending, and then the cab tries to start moving; the cab never changes floor |
| Cabs.HallCall | src/Elevator.java:44-50 | a hall call is rejected iff its direction is IDLE or its floor is outside the building; an IDLE direction is reported first, then a floor below 1, then an out-of-range floor; an accepted call makes its floor pending and gives exactly `Enqueue` of the hall call, so its direction decides the queue and an idle, closed cab starts moving |
| Cabs.CarCall | src/Elevator.java:52-54 | a car call is rejected iff its floor is outside the building; a floor below 1 is reported before an out-of-range floor; an accepted call makes its floor pending and gives exactly `Enqueue` of the car call, so its position decides the queue and an idle, closed cab starts moving |
| CabProperties.RebalanceKeepsPlacement | src/Elevator.java:78-78 | rebalancing keeps the cab and every pending floor inside the building |
| CabProperties.StopHereIsConsistent | src/Elevator.java:166-171 | starting the door cycle from a placed cab gives a consistent cab |
| CabProperties.SwitchToIsConsistent | src/Elevator.java:183-192 | a closed, resting cab switched to any direction is consistent: mode, door and direction agree |
| CabProperties.HandleIdlePreservesConsistency | src/Elevator.java:88-97 | the idle handler keeps the invariant |
| CabProperties.MoveUpDecides | src/Elevator.java:99-117 | a pending floor under the cab always starts a stop there; otherwise at maxFloor the cab switches to DOWN without moving, and below it rises exactly one floor; there it stops iff that floor is pending, keeps moving up iff the up queue has a floor above, and else switches to the scheduler's choice with DOWN preferred |
| CabProperties.MoveDownDecides | src/Elevator.java:119-137 | the mirror image: a pending floor under the cab starts a stop; at minFloor the cab switches to UP; otherwise it descends exactly one floor, stops there iff that floor is pending, keeps moving down iff the down queue has a floor below, and else switches to the scheduler's choice with UP preferred |
| CabProperties.MoveUpPreservesConsistency | src/Elevator.java:99-117 | the move-up handler keeps the invariant, the floor bound included |
| CabProperties.MoveDownPreservesConsistency | src/Elevator.java:119-137 | the move-down handler keeps the invariant, the floor bound included |
| CabProperties.AdvanceDoorCyclePreservesConsistency | src/Elevator.java:139-164 | the door countdown keeps the invariant |
| CabProperties.TickPreservesConsistency | src/Elevator.java:77-86 | every tick keeps the invariant: floors in range, queues disjoint, mode/door/direction agreement, sweep never IDLE |
| CabProperties.TickReversesAtTop | src/Elevator.java:104-106 | moving up at maxFloor with nothing to serve there, the cab switches to MOVING_DOWN without moving |
| CabProperties.TickReversesAtBottom | src/Elevator.java:124-126 | moving down at minFloor with nothing to serve there, the cab switches to MOVING_UP without moving |
| CabProperties.DoorCountdown | src/Elevator.java:139-145 | while more than one countdown tick is left, a tick only decrements the timer; this is the general countdown path, which a consistent cab never takes while both door constants are 1 |
| CabProperties.DoorCycleOrder | src/Elevator.java:146-164 | from DOOR_OPENING the door is OPEN after one tick, CLOSING after two and CLOSED after three, at the same floor, with no pending floor gained or lost |
| CabProperties.IdleWithoutWorkIsStable | src/Elevator.java:88-97 | an idle cab with no pending floors is unchanged by a tick |
| CabProperties.NewCallStartsIdleCab | src/Elevator.java:56-62 | a new floor inside the building, submitted to an idle cab with its door closed, is accepted and sets the cab moving up or down at once |
| CabProperties.EnqueuePreservesConsistency | src/Elevator.java:56-62 | an accepted call keeps the invariant |
| Elevators.Elevator.constructor | src/Elevator.java:32-42 | the new elevator holds the given bounds, satisfies the invariant, and its state is the initial cab |
| Elevators.Elevator.Create | src/Elevator.java:32-42 | creation fails iff the configuration check fails, with that error; otherwise it gives a fresh elevator in the initial state |
| Elevators.Elevator.CreateWithFloors | src/Elevator.java:28-37 | floors 1 to totalFloors; creation fails iff totalFloors < 1, and then with the error "maxFloor below minFloor" |
| Elevators.Elevator.CreateDefault | src/Elevator.java:24-26 | a fresh elevator serving floors 1 to 10, in the initial state |
| Elevators.Elevator.HallCall | src/Elevator.java:44-50 | a rejected hall call reports the error and leaves the whole state unchanged; an accepted one gives the state Cabs.HallCall describes; the invariant is kept |
| Elevators.Elevator.CarCall | src/Elevator.java:52-54 | a rejected car call reports the error and leaves the whole state unchanged; an accepted one gives the state Cabs.CarCall describes |
| Elevators.Elevator.Enqueue | src/Elevator.java:56-62 | validate, submit, and start moving only for a new floor; the resulting state is Cabs.Enqueue of the old one |
| Elevators.Elevator.Tick | src/Elevator.java:77-86 | the invariant is kept and the new state is Cabs.Tick of the old one |
| Elevators.Elevator.HandleIdle | src/Elevator.java:88-97 | the new state is Cabs.HandleIdle of the old one |
| Elevators.Elevator.MoveUp | src/Elevator.java:99-117 | the new state is Cabs.MoveUp of the old one |
| Elevators.Elevator.MoveDown | src/Elevator.java:119-137 | the new state is Cabs.MoveDown of the old one |
| Elevators.Elevator.AdvanceDoorCycle | src/Elevator.java:139-164 | the new state is Cabs.AdvanceDoorCycle of the old one |
| Elevators.Elevator.BeginDoorCycle | src/Elevator.java:166-171 | door OPENING, mode DOOR_OPENING, timer at the stage length, direction IDLE; nothing else changes |
| Elevators.Elevator.TryStartMovement | src/Elevator.java:173-181 | the new state is Cabs.TryStartMovement of the old one |
| Elevators.Elevator.SwitchTo | src/Elevator.java:183-192 | the new state is Cabs.SwitchTo of the old one |
| Scenarios.IterateKeeps | test/ElevatorTest.java:55-65 | a property every tick keeps holds after any number of ticks |
| Scenarios.IterateSettles | test/ElevatorTest.java:55-65 | once a tick changes nothing, further ticks change nothing |
| Scenarios.RunStep | test/ElevatorTest.java:57-58 | one more tick of a run ticks the cab once more |
| Scenarios.RunNext | test/ElevatorTest.java:57-58 | a run that has reached a state reaches that state's tick one step later |
| Scenarios.StopsNext | test/ElevatorTest.java:59-62 | one more tick appends the floor to the stop list iff the door is then OPEN |
| Scenarios.RunPreservesConsistency | test/ElevatorTest.java:55-65 | every state of a run satisfies the invariant, and every recorded stop is inside the building |
| Scenarios.RestsOnceIdle | test/ElevatorTest.java:55-65 | once the cab is idle and closed with nothing pending, further ticks change neither the cab nor the stop list |
| Scenarios.CollectStops | test/ElevatorTest.java:55-65 | ticking an elevator n times and recording each floor where the door is OPEN yields exactly the stop list and final state of the run of n ticks |
| ElevatorTests.ServesRequestsInScanOrder | test/ElevatorTest.java:13-26 | 12 floors, car call 8, three ticks, DOWN hall call at 2, then 30 ticks: the stops are exactly [8, 2] |
| ElevatorTests.IgnoresDuplicateRequests | test/ElevatorTest.java:28-38 | 6 floors, car call 4 twice and an UP hall call at 4, then 15 ticks: the stops are exactly [4] |
| ElevatorTests.ReturnsToIdleAfterCompletingWork | test/ElevatorTest.java:40-53 | 5 floors, car call 5, then 20 ticks: floor 5, IDLE, door CLOSED, both snapshots empty |

## Left out

- `src/Main.java`: the console demo driver only prints tables.
- `src/ElevatorState.java` and `Elevator.getState` (`src/Elevator.java:64-72`): an immutable copy of the fields. `Elevator.State()` and the two snapshot functions play its role.
- `hashCode`, `toString` and the `Objects.requireNonNull` checks: Dafny values have no null, and hashing and formatting carry no logic.
- The `default ->` branches that throw `IllegalStateException` (`src/Elevator.java:84`, `src/Elevator.java:162`): the mode datatype's cases are matched exhaustively, so they cannot be reached.
- Java `int` is 32 bits wide. Floors here are unbounded integers. The floor changes only by one step inside `[minFloor, maxFloor]`, so no overflow can occur for a valid building.
- `TreeSet` internals: the queues are strictly ascending sequences with the same contents and order.
- The JUnit harness itself: only the scenarios and the `collectStops` loop are modelled.
- Scenarios.LogStep: a run steps only from a cab whose queues are valid, which every consistent run is; from any other cab the step changes nothing, so that the run function is total.
