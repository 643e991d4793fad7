/** Runs of several ticks and the floors at which the door stands open after
    each of them: the observation the repository's unit tests make, both as
    functions on the cab value and as the loop that drives an Elevator.
    Runs are iterations of a step function; their general facts are proved
    once for any step, then applied to the tick. */
module Scenarios {
  import opened Directions
  import opened Scheduling
  import opened Cabs
  import opened CabProperties
  import opened Elevators

  /** s after n applications of step. */
  function Iterate<S>(step: S -> S, s: S, n: nat): S
    decreases n
  {
    if n == 0 then s else step(Iterate(step, s, n - 1))
  }

  /** A property kept by every step holds after any number of steps. */
  lemma {:induction false} IterateKeeps<S>(step: S -> S, inv: S -> bool, s: S, n: nat)
    requires inv(s)
    requires forall x :: inv(x) ==> inv(step(x))
    ensures inv(Iterate(step, s, n))
    decreases n
  {
    if n > 0 {
      IterateKeeps(step, inv, s, n - 1);
    }
  }

  /** From a fixed point of step, further steps change nothing. */
  lemma {:induction false} IterateSettles<S>(step: S -> S, s: S, k: nat, j: nat)
    requires step(Iterate(step, s, k)) == Iterate(step, s, k)
    ensures Iterate(step, s, k + j) == Iterate(step, s, k)
    decreases j
  {
    if j > 0 {
      IterateSettles(step, s, k, j - 1);
    }
  }

  /** A cab together with the floors, in order, at which its door has been
      seen open after a tick. */
  datatype Logged = Logged(cab: Cab, stops: seq<int>)

  /** The floor the door stands open at, if it does. */
  function DoorOpenAt(c: Cab): seq<int> {
    if c.door == Open then [c.floor] else []
  }

  /** One tick, recording the floor if the door then stands open. Every cab
      a run reaches has valid queues (Tick keeps them so); the guard only
      makes the step total. */
  function LogStep(b: Building): Logged -> Logged {
    (l: Logged) =>
      if l.cab.queues.Valid() then
        var d := Tick(b, l.cab); Logged(d, l.stops + DoorOpenAt(d))
      else l
  }

  /** The cab, and the stops it has recorded, after n ticks. */
  function Trace(b: Building, c: Cab, n: nat): Logged {
    Iterate(LogStep(b), Logged(c, []), n)
  }

  /** The cab after n ticks. */
  function Run(b: Building, c: Cab, n: nat): Cab {
    Trace(b, c, n).cab
  }

  /** The floors at which the door is open after each of the first n
      ticks, in order. */
  function Stops(b: Building, c: Cab, n: nat): seq<int> {
    Trace(b, c, n).stops
  }

  /** The next tick of a run: the cab ticks once more. */
  lemma RunStep(b: Building, c: Cab, n: nat)
    requires Run(b, c, n).queues.Valid()
    ensures Run(b, c, n + 1) == Tick(b, Run(b, c, n))
  {
  }

  /** The same step, from a state the run is known to have reached. */
  lemma RunNext(b: Building, c: Cab, n: nat, x: Cab, y: Cab)
    requires Run(b, c, n) == x && x.queues.Valid() && Tick(b, x) == y
    ensures Run(b, c, n + 1) == y
  {
    RunStep(b, c, n);
  }

  /** The stops after one more tick: the floor is recorded if the door then
      stands open. */
  lemma StopsNext(b: Building, c: Cab, n: nat)
    requires Run(b, c, n).queues.Valid()
    ensures Stops(b, c, n + 1) == Stops(b, c, n) + DoorOpenAt(Run(b, c, n + 1))
  {
  }

  /** Consistency of the cab, and every recorded stop inside the building. */
  ghost predicate LogServed(b: Building, l: Logged) {
    Consistent(b, l.cab) && forall i :: 0 <= i < |l.stops| ==> b.Serves(l.stops[i])
  }

  lemma LogStepKeepsServed(b: Building)
    ensures forall l :: LogServed(b, l) ==> LogServed(b, LogStep(b)(l))
  {
    forall l | LogServed(b, l)
      ensures LogServed(b, LogStep(b)(l))
    {
      TickPreservesConsistency(b, l.cab);
    }
  }

  /** Every state a run reaches is consistent, and every floor at which the
      door opens is inside the building. */
  lemma RunPreservesConsistency(b: Building, c: Cab, n: nat)
    requires Consistent(b, c)
    ensures Consistent(b, Run(b, c, n))
    ensures forall i :: 0 <= i < |Stops(b, c, n)| ==> b.Serves(Stops(b, c, n)[i])
  {
    LogStepKeepsServed(b);
    IterateKeeps(LogStep(b), (l: Logged) => LogServed(b, l), Logged(c, []), n);
  }

  /** Once the cab rests, idle with its door closed and nothing pending, it
      stays so and records no further stop. */
  lemma RestsOnceIdle(b: Building, c: Cab, k: nat, j: nat)
    requires var r := Run(b, c, k);
      Consistent(b, r) && r.mode == Mode.Idle && r.door == Closed && r.queues.Pending() == {}
    ensures Run(b, c, k + j) == Run(b, c, k)
    ensures Stops(b, c, k + j) == Stops(b, c, k)
  {
    var l := Trace(b, c, k);
    IdleWithoutWorkIsStable(b, l.cab);
    assert l.stops + DoorOpenAt(l.cab) == l.stops;
    IterateSettles(LogStep(b), Logged(c, []), k, j);
  }

  /** The Elevator's tick loop that records the floor after each tick at
      which the door stands open. */
  method CollectStops(e: Elevator, ticks: nat) returns (stops: seq<int>)
    requires e.Valid()
    modifies e, e.scheduler
    ensures e.Valid()
    ensures e.State() == Run(e.Floors(), old(e.State()), ticks)
    ensures stops == Stops(e.Floors(), old(e.State()), ticks)
  {
    ghost var b := e.Floors();
    ghost var start := e.State();
    stops := [];
    var i := 0;
    while i < ticks
      invariant 0 <= i <= ticks && e.Valid()
      invariant e.State() == Run(b, start, i)
      invariant stops == Stops(b, start, i)
    {
      RunStep(b, start, i);
      StopsNext(b, start, i);
      e.Tick();
      if e.doorState == Open {
        stops := stops + [e.currentFloor];
      }
      i := i + 1;
    }
  }
}
