/** The scheduling scenarios of the repository's unit tests, as facts about
    the model: each test's calls and ticks, and what it asserts afterwards.
    A trace is checked one tick at a time: for each named state, one lemma
    says which state the next tick reaches, another which state the run has
    reached after that many ticks, and a third which stops it has recorded.
    The last two take the number of ticks as a parameter, so that the verifier follows
    the trace instead of evaluating the whole run at once. A single lemma
    for a whole run, or one walking a list of expected states, leaves the
    verifier to unfold every tick in one proof obligation; one lemma per
    tick keeps each obligation to a single tick. Once the cab
    rests, RestsOnceIdle covers the remaining ticks. */
module ElevatorTests {
  import opened Directions
  import opened Failures
  import OrderedFloors
  import opened Scheduling
  import opened Cabs
  import opened Scenarios

  /* ServesRequestsInScanOrder: a 12-floor cab with a car call for 8, given
     a DOWN hall call at 2 after three ticks, stops at 8 and then at 2. */

  const Twelve := Building(1, 12)
  /** Heading for the car call at 8. */
  const TwelveUp := Cab(1, MovingUp, Up, Up, Closed, 0, Queues([8], []))
  /** At 4 with the hall call at 2 waiting in the down queue. */
  const TwelveBoth := Cab(4, MovingUp, Up, Up, Closed, 0, Queues([8], [2]))
  const TwelveAt8 := Cab(8, Mode.Idle, Direction.Idle, Up, Closed, 0, Queues([], [2]))
  /** Door closed at 8, sweeping down towards 2. */
  const TwelveDown := Cab(8, MovingDown, Down, Down, Closed, 0, Queues([], [2]))
  const TwelveAt2 := Cab(2, Mode.Idle, Direction.Idle, Down, Closed, 0, Queues([], []))

  lemma ServesRequestsInScanOrder()
    ensures
      var c := CarCall(Twelve, Initial(Twelve), 8).value;
      var d := HallCall(Twelve, Run(Twelve, c, 3), 2, Down).value;
      Stops(Twelve, d, 30) == [8, 2]
  {
    TwelveCalls();
    TwelveWarmUpRun3(3);
    TwelveTrace();
  }

  lemma TwelveCalls()
    ensures CarCall(Twelve, Initial(Twelve), 8) == Ok(TwelveUp)
    ensures HallCall(Twelve, TwelveUp.(floor := 4), 2, Down) == Ok(TwelveBoth)
  {
  }

  lemma TwelveTrace()
    ensures Stops(Twelve, TwelveBoth, 30) == [8, 2]
  {
    TwelveRun16(16);
    TwelveStops16(16);
    TwelveRests();
    RestsOnceIdle(Twelve, TwelveBoth, 16, 14);
  }

  lemma TwelveRests()
    ensures Consistent(Twelve, TwelveAt2) && TwelveAt2.queues.Pending() == {}
  {
    OrderedFloors.ElemsEmpty([]);
  }

  lemma TwelveWarmUpTick1() ensures Tick(Twelve, TwelveUp) == TwelveUp.(floor := 2) {}
  lemma TwelveWarmUpTick2() ensures Tick(Twelve, TwelveUp.(floor := 2)) == TwelveUp.(floor := 3) {}
  lemma TwelveWarmUpTick3() ensures Tick(Twelve, TwelveUp.(floor := 3)) == TwelveUp.(floor := 4) {}

  lemma TwelveWarmUpRun1(n: nat)
    requires n == 1
    ensures Run(Twelve, TwelveUp, n) == TwelveUp.(floor := 2)
  {
    TwelveWarmUpTick1();
    RunNext(Twelve, TwelveUp, n - 1, TwelveUp, TwelveUp.(floor := 2));
  }

  lemma TwelveWarmUpRun2(n: nat)
    requires n == 2
    ensures Run(Twelve, TwelveUp, n) == TwelveUp.(floor := 3)
  {
    TwelveWarmUpRun1(n - 1);
    TwelveWarmUpTick2();
    RunNext(Twelve, TwelveUp, n - 1, TwelveUp.(floor := 2), TwelveUp.(floor := 3));
  }

  lemma TwelveWarmUpRun3(n: nat)
    requires n == 3
    ensures Run(Twelve, TwelveUp, n) == TwelveUp.(floor := 4)
  {
    TwelveWarmUpRun2(n - 1);
    TwelveWarmUpTick3();
    RunNext(Twelve, TwelveUp, n - 1, TwelveUp.(floor := 3), TwelveUp.(floor := 4));
  }

  lemma TwelveTick1() ensures Tick(Twelve, TwelveBoth) == TwelveBoth.(floor := 5) {}
  lemma TwelveTick2() ensures Tick(Twelve, TwelveBoth.(floor := 5)) == TwelveBoth.(floor := 6) {}
  lemma TwelveTick3() ensures Tick(Twelve, TwelveBoth.(floor := 6)) == TwelveBoth.(floor := 7) {}
  lemma TwelveTick4() ensures Tick(Twelve, TwelveBoth.(floor := 7)) == TwelveAt8.(mode := DoorOpening, door := Opening, timer := 1) {}
  lemma TwelveTick5() ensures Tick(Twelve, TwelveAt8.(mode := DoorOpening, door := Opening, timer := 1)) == TwelveAt8.(mode := DoorOpen, door := Open, timer := 1) {}
  lemma TwelveTick6() ensures Tick(Twelve, TwelveAt8.(mode := DoorOpen, door := Open, timer := 1)) == TwelveAt8.(mode := DoorClosing, door := Closing, timer := 1) {}
  lemma TwelveTick7() ensures Tick(Twelve, TwelveAt8.(mode := DoorClosing, door := Closing, timer := 1)) == TwelveDown {}
  lemma TwelveTick8() ensures Tick(Twelve, TwelveDown) == TwelveDown.(floor := 7) {}
  lemma TwelveTick9() ensures Tick(Twelve, TwelveDown.(floor := 7)) == TwelveDown.(floor := 6) {}
  lemma TwelveTick10() ensures Tick(Twelve, TwelveDown.(floor := 6)) == TwelveDown.(floor := 5) {}
  lemma TwelveTick11() ensures Tick(Twelve, TwelveDown.(floor := 5)) == TwelveDown.(floor := 4) {}
  lemma TwelveTick12() ensures Tick(Twelve, TwelveDown.(floor := 4)) == TwelveDown.(floor := 3) {}
  lemma TwelveTick13() ensures Tick(Twelve, TwelveDown.(floor := 3)) == TwelveAt2.(mode := DoorOpening, door := Opening, timer := 1) {}
  lemma TwelveTick14() ensures Tick(Twelve, TwelveAt2.(mode := DoorOpening, door := Opening, timer := 1)) == TwelveAt2.(mode := DoorOpen, door := Open, timer := 1) {}
  lemma TwelveTick15() ensures Tick(Twelve, TwelveAt2.(mode := DoorOpen, door := Open, timer := 1)) == TwelveAt2.(mode := DoorClosing, door := Closing, timer := 1) {}
  lemma TwelveTick16() ensures Tick(Twelve, TwelveAt2.(mode := DoorClosing, door := Closing, timer := 1)) == TwelveAt2 {}

  lemma TwelveRun1(n: nat)
    requires n == 1
    ensures Run(Twelve, TwelveBoth, n) == TwelveBoth.(floor := 5)
  {
    TwelveTick1();
    RunNext(Twelve, TwelveBoth, n - 1, TwelveBoth, TwelveBoth.(floor := 5));
  }

  lemma TwelveRun2(n: nat)
    requires n == 2
    ensures Run(Twelve, TwelveBoth, n) == TwelveBoth.(floor := 6)
  {
    TwelveRun1(n - 1);
    TwelveTick2();
    RunNext(Twelve, TwelveBoth, n - 1, TwelveBoth.(floor := 5), TwelveBoth.(floor := 6));
  }

  lemma TwelveRun3(n: nat)
    requires n == 3
    ensures Run(Twelve, TwelveBoth, n) == TwelveBoth.(floor := 7)
  {
    TwelveRun2(n - 1);
    TwelveTick3();
    RunNext(Twelve, TwelveBoth, n - 1, TwelveBoth.(floor := 6), TwelveBoth.(floor := 7));
  }

  lemma TwelveRun4(n: nat)
    requires n == 4
    ensures Run(Twelve, TwelveBoth, n) == TwelveAt8.(mode := DoorOpening, door := Opening, timer := 1)
  {
    TwelveRun3(n - 1);
    TwelveTick4();
    RunNext(Twelve, TwelveBoth, n - 1, TwelveBoth.(floor := 7), TwelveAt8.(mode := DoorOpening, door := Opening, timer := 1));
  }

  lemma TwelveRun5(n: nat)
    requires n == 5
    ensures Run(Twelve, TwelveBoth, n) == TwelveAt8.(mode := DoorOpen, door := Open, timer := 1)
  {
    TwelveRun4(n - 1);
    TwelveTick5();
    RunNext(Twelve, TwelveBoth, n - 1, TwelveAt8.(mode := DoorOpening, door := Opening, timer := 1), TwelveAt8.(mode := DoorOpen, door := Open, timer := 1));
  }

  lemma TwelveRun6(n: nat)
    requires n == 6
    ensures Run(Twelve, TwelveBoth, n) == TwelveAt8.(mode := DoorClosing, door := Closing, timer := 1)
  {
    TwelveRun5(n - 1);
    TwelveTick6();
    RunNext(Twelve, TwelveBoth, n - 1, TwelveAt8.(mode := DoorOpen, door := Open, timer := 1), TwelveAt8.(mode := DoorClosing, door := Closing, timer := 1));
  }

  lemma TwelveRun7(n: nat)
    requires n == 7
    ensures Run(Twelve, TwelveBoth, n) == TwelveDown
  {
    TwelveRun6(n - 1);
    TwelveTick7();
    RunNext(Twelve, TwelveBoth, n - 1, TwelveAt8.(mode := DoorClosing, door := Closing, timer := 1), TwelveDown);
  }

  lemma TwelveRun8(n: nat)
    requires n == 8
    ensures Run(Twelve, TwelveBoth, n) == TwelveDown.(floor := 7)
  {
    TwelveRun7(n - 1);
    TwelveTick8();
    RunNext(Twelve, TwelveBoth, n - 1, TwelveDown, TwelveDown.(floor := 7));
  }

  lemma TwelveRun9(n: nat)
    requires n == 9
    ensures Run(Twelve, TwelveBoth, n) == TwelveDown.(floor := 6)
  {
    TwelveRun8(n - 1);
    TwelveTick9();
    RunNext(Twelve, TwelveBoth, n - 1, TwelveDown.(floor := 7), TwelveDown.(floor := 6));
  }

  lemma TwelveRun10(n: nat)
    requires n == 10
    ensures Run(Twelve, TwelveBoth, n) == TwelveDown.(floor := 5)
  {
    TwelveRun9(n - 1);
    TwelveTick10();
    RunNext(Twelve, TwelveBoth, n - 1, TwelveDown.(floor := 6), TwelveDown.(floor := 5));
  }

  lemma TwelveRun11(n: nat)
    requires n == 11
    ensures Run(Twelve, TwelveBoth, n) == TwelveDown.(floor := 4)
  {
    TwelveRun10(n - 1);
    TwelveTick11();
    RunNext(Twelve, TwelveBoth, n - 1, TwelveDown.(floor := 5), TwelveDown.(floor := 4));
  }

  lemma TwelveRun12(n: nat)
    requires n == 12
    ensures Run(Twelve, TwelveBoth, n) == TwelveDown.(floor := 3)
  {
    TwelveRun11(n - 1);
    TwelveTick12();
    RunNext(Twelve, TwelveBoth, n - 1, TwelveDown.(floor := 4), TwelveDown.(floor := 3));
  }

  lemma TwelveRun13(n: nat)
    requires n == 13
    ensures Run(Twelve, TwelveBoth, n) == TwelveAt2.(mode := DoorOpening, door := Opening, timer := 1)
  {
    TwelveRun12(n - 1);
    TwelveTick13();
    RunNext(Twelve, TwelveBoth, n - 1, TwelveDown.(floor := 3), TwelveAt2.(mode := DoorOpening, door := Opening, timer := 1));
  }

  lemma TwelveRun14(n: nat)
    requires n == 14
    ensures Run(Twelve, TwelveBoth, n) == TwelveAt2.(mode := DoorOpen, door := Open, timer := 1)
  {
    TwelveRun13(n - 1);
    TwelveTick14();
    RunNext(Twelve, TwelveBoth, n - 1, TwelveAt2.(mode := DoorOpening, door := Opening, timer := 1), TwelveAt2.(mode := DoorOpen, door := Open, timer := 1));
  }

  lemma TwelveRun15(n: nat)
    requires n == 15
    ensures Run(Twelve, TwelveBoth, n) == TwelveAt2.(mode := DoorClosing, door := Closing, timer := 1)
  {
    TwelveRun14(n - 1);
    TwelveTick15();
    RunNext(Twelve, TwelveBoth, n - 1, TwelveAt2.(mode := DoorOpen, door := Open, timer := 1), TwelveAt2.(mode := DoorClosing, door := Closing, timer := 1));
  }

  lemma TwelveRun16(n: nat)
    requires n == 16
    ensures Run(Twelve, TwelveBoth, n) == TwelveAt2
  {
    TwelveRun15(n - 1);
    TwelveTick16();
    RunNext(Twelve, TwelveBoth, n - 1, TwelveAt2.(mode := DoorClosing, door := Closing, timer := 1), TwelveAt2);
  }

  lemma TwelveStops1(n: nat)
    requires n == 1
    ensures Stops(Twelve, TwelveBoth, n) == []
  {
    TwelveRun1(n);
    StopsNext(Twelve, TwelveBoth, n - 1);
  }

  lemma TwelveStops2(n: nat)
    requires n == 2
    ensures Stops(Twelve, TwelveBoth, n) == []
  {
    TwelveStops1(n - 1);
    TwelveRun1(n - 1);
    TwelveRun2(n);
    StopsNext(Twelve, TwelveBoth, n - 1);
  }

  lemma TwelveStops3(n: nat)
    requires n == 3
    ensures Stops(Twelve, TwelveBoth, n) == []
  {
    TwelveStops2(n - 1);
    TwelveRun2(n - 1);
    TwelveRun3(n);
    StopsNext(Twelve, TwelveBoth, n - 1);
  }

  lemma TwelveStops4(n: nat)
    requires n == 4
    ensures Stops(Twelve, TwelveBoth, n) == []
  {
    TwelveStops3(n - 1);
    TwelveRun3(n - 1);
    TwelveRun4(n);
    StopsNext(Twelve, TwelveBoth, n - 1);
  }

  lemma TwelveStops5(n: nat)
    requires n == 5
    ensures Stops(Twelve, TwelveBoth, n) == [8]
  {
    TwelveStops4(n - 1);
    TwelveRun4(n - 1);
    TwelveRun5(n);
    StopsNext(Twelve, TwelveBoth, n - 1);
  }

  lemma TwelveStops6(n: nat)
    requires n == 6
    ensures Stops(Twelve, TwelveBoth, n) == [8]
  {
    TwelveStops5(n - 1);
    TwelveRun5(n - 1);
    TwelveRun6(n);
    StopsNext(Twelve, TwelveBoth, n - 1);
  }

  lemma TwelveStops7(n: nat)
    requires n == 7
    ensures Stops(Twelve, TwelveBoth, n) == [8]
  {
    TwelveStops6(n - 1);
    TwelveRun6(n - 1);
    TwelveRun7(n);
    StopsNext(Twelve, TwelveBoth, n - 1);
  }

  lemma TwelveStops8(n: nat)
    requires n == 8
    ensures Stops(Twelve, TwelveBoth, n) == [8]
  {
    TwelveStops7(n - 1);
    TwelveRun7(n - 1);
    TwelveRun8(n);
    StopsNext(Twelve, TwelveBoth, n - 1);
  }

  lemma TwelveStops9(n: nat)
    requires n == 9
    ensures Stops(Twelve, TwelveBoth, n) == [8]
  {
    TwelveStops8(n - 1);
    TwelveRun8(n - 1);
    TwelveRun9(n);
    StopsNext(Twelve, TwelveBoth, n - 1);
  }

  lemma TwelveStops10(n: nat)
    requires n == 10
    ensures Stops(Twelve, TwelveBoth, n) == [8]
  {
    TwelveStops9(n - 1);
    TwelveRun9(n - 1);
    TwelveRun10(n);
    StopsNext(Twelve, TwelveBoth, n - 1);
  }

  lemma TwelveStops11(n: nat)
    requires n == 11
    ensures Stops(Twelve, TwelveBoth, n) == [8]
  {
    TwelveStops10(n - 1);
    TwelveRun10(n - 1);
    TwelveRun11(n);
    StopsNext(Twelve, TwelveBoth, n - 1);
  }

  lemma TwelveStops12(n: nat)
    requires n == 12
    ensures Stops(Twelve, TwelveBoth, n) == [8]
  {
    TwelveStops11(n - 1);
    TwelveRun11(n - 1);
    TwelveRun12(n);
    StopsNext(Twelve, TwelveBoth, n - 1);
  }

  lemma TwelveStops13(n: nat)
    requires n == 13
    ensures Stops(Twelve, TwelveBoth, n) == [8]
  {
    TwelveStops12(n - 1);
    TwelveRun12(n - 1);
    TwelveRun13(n);
    StopsNext(Twelve, TwelveBoth, n - 1);
  }

  lemma TwelveStops14(n: nat)
    requires n == 14
    ensures Stops(Twelve, TwelveBoth, n) == [8, 2]
  {
    TwelveStops13(n - 1);
    TwelveRun13(n - 1);
    TwelveRun14(n);
    StopsNext(Twelve, TwelveBoth, n - 1);
  }

  lemma TwelveStops15(n: nat)
    requires n == 15
    ensures Stops(Twelve, TwelveBoth, n) == [8, 2]
  {
    TwelveStops14(n - 1);
    TwelveRun14(n - 1);
    TwelveRun15(n);
    StopsNext(Twelve, TwelveBoth, n - 1);
  }

  lemma TwelveStops16(n: nat)
    requires n == 16
    ensures Stops(Twelve, TwelveBoth, n) == [8, 2]
  {
    TwelveStops15(n - 1);
    TwelveRun15(n - 1);
    TwelveRun16(n);
    StopsNext(Twelve, TwelveBoth, n - 1);
  }


  /* IgnoresDuplicateRequests: two car calls and a hall call for floor 4 of a
     6-floor cab produce a single stop there. */

  const Six := Building(1, 6)
  const SixUp := Cab(1, MovingUp, Up, Up, Closed, 0, Queues([4], []))
  const SixAt4 := Cab(4, Mode.Idle, Direction.Idle, Up, Closed, 0, Queues([], []))

  lemma IgnoresDuplicateRequests()
    ensures
      var c := CarCall(Six, Initial(Six), 4).value;
      var c' := CarCall(Six, c, 4).value;
      var c'' := HallCall(Six, c', 4, Up).value;
      Stops(Six, c'', 15) == [4]
  {
    SixCalls();
    SixTrace();
  }

  lemma SixCalls()
    ensures CarCall(Six, Initial(Six), 4) == Ok(SixUp)
    ensures CarCall(Six, SixUp, 4) == Ok(SixUp)
    ensures HallCall(Six, SixUp, 4, Up) == Ok(SixUp)
  {
  }

  lemma SixTrace()
    ensures Stops(Six, SixUp, 15) == [4]
  {
    SixRun6(6);
    SixStops6(6);
    SixRests();
    RestsOnceIdle(Six, SixUp, 6, 9);
  }

  lemma SixRests()
    ensures Consistent(Six, SixAt4) && SixAt4.queues.Pending() == {}
  {
    OrderedFloors.ElemsEmpty([]);
  }

  lemma SixTick1() ensures Tick(Six, SixUp) == SixUp.(floor := 2) {}
  lemma SixTick2() ensures Tick(Six, SixUp.(floor := 2)) == SixUp.(floor := 3) {}
  lemma SixTick3() ensures Tick(Six, SixUp.(floor := 3)) == SixAt4.(mode := DoorOpening, door := Opening, timer := 1) {}
  lemma SixTick4() ensures Tick(Six, SixAt4.(mode := DoorOpening, door := Opening, timer := 1)) == SixAt4.(mode := DoorOpen, door := Open, timer := 1) {}
  lemma SixTick5() ensures Tick(Six, SixAt4.(mode := DoorOpen, door := Open, timer := 1)) == SixAt4.(mode := DoorClosing, door := Closing, timer := 1) {}
  lemma SixTick6() ensures Tick(Six, SixAt4.(mode := DoorClosing, door := Closing, timer := 1)) == SixAt4 {}

  lemma SixRun1(n: nat)
    requires n == 1
    ensures Run(Six, SixUp, n) == SixUp.(floor := 2)
  {
    SixTick1();
    RunNext(Six, SixUp, n - 1, SixUp, SixUp.(floor := 2));
  }

  lemma SixRun2(n: nat)
    requires n == 2
    ensures Run(Six, SixUp, n) == SixUp.(floor := 3)
  {
    SixRun1(n - 1);
    SixTick2();
    RunNext(Six, SixUp, n - 1, SixUp.(floor := 2), SixUp.(floor := 3));
  }

  lemma SixRun3(n: nat)
    requires n == 3
    ensures Run(Six, SixUp, n) == SixAt4.(mode := DoorOpening, door := Opening, timer := 1)
  {
    SixRun2(n - 1);
    SixTick3();
    RunNext(Six, SixUp, n - 1, SixUp.(floor := 3), SixAt4.(mode := DoorOpening, door := Opening, timer := 1));
  }

  lemma SixRun4(n: nat)
    requires n == 4
    ensures Run(Six, SixUp, n) == SixAt4.(mode := DoorOpen, door := Open, timer := 1)
  {
    SixRun3(n - 1);
    SixTick4();
    RunNext(Six, SixUp, n - 1, SixAt4.(mode := DoorOpening, door := Opening, timer := 1), SixAt4.(mode := DoorOpen, door := Open, timer := 1));
  }

  lemma SixRun5(n: nat)
    requires n == 5
    ensures Run(Six, SixUp, n) == SixAt4.(mode := DoorClosing, door := Closing, timer := 1)
  {
    SixRun4(n - 1);
    SixTick5();
    RunNext(Six, SixUp, n - 1, SixAt4.(mode := DoorOpen, door := Open, timer := 1), SixAt4.(mode := DoorClosing, door := Closing, timer := 1));
  }

  lemma SixRun6(n: nat)
    requires n == 6
    ensures Run(Six, SixUp, n) == SixAt4
  {
    SixRun5(n - 1);
    SixTick6();
    RunNext(Six, SixUp, n - 1, SixAt4.(mode := DoorClosing, door := Closing, timer := 1), SixAt4);
  }

  lemma SixStops1(n: nat)
    requires n == 1
    ensures Stops(Six, SixUp, n) == []
  {
    SixRun1(n);
    StopsNext(Six, SixUp, n - 1);
  }

  lemma SixStops2(n: nat)
    requires n == 2
    ensures Stops(Six, SixUp, n) == []
  {
    SixStops1(n - 1);
    SixRun1(n - 1);
    SixRun2(n);
    StopsNext(Six, SixUp, n - 1);
  }

  lemma SixStops3(n: nat)
    requires n == 3
    ensures Stops(Six, SixUp, n) == []
  {
    SixStops2(n - 1);
    SixRun2(n - 1);
    SixRun3(n);
    StopsNext(Six, SixUp, n - 1);
  }

  lemma SixStops4(n: nat)
    requires n == 4
    ensures Stops(Six, SixUp, n) == [4]
  {
    SixStops3(n - 1);
    SixRun3(n - 1);
    SixRun4(n);
    StopsNext(Six, SixUp, n - 1);
  }

  lemma SixStops5(n: nat)
    requires n == 5
    ensures Stops(Six, SixUp, n) == [4]
  {
    SixStops4(n - 1);
    SixRun4(n - 1);
    SixRun5(n);
    StopsNext(Six, SixUp, n - 1);
  }

  lemma SixStops6(n: nat)
    requires n == 6
    ensures Stops(Six, SixUp, n) == [4]
  {
    SixStops5(n - 1);
    SixRun5(n - 1);
    SixRun6(n);
    StopsNext(Six, SixUp, n - 1);
  }


  /* ReturnsToIdleAfterCompletingWork: a 5-floor cab sent to floor 5 is,
     twenty ticks later, idle there with its door closed and both queues
     empty. */

  const Five := Building(1, 5)
  const FiveUp := Cab(1, MovingUp, Up, Up, Closed, 0, Queues([5], []))
  const FiveAt5 := Cab(5, Mode.Idle, Direction.Idle, Up, Closed, 0, Queues([], []))

  lemma ReturnsToIdleAfterCompletingWork()
    ensures
      var c := Run(Five, CarCall(Five, Initial(Five), 5).value, 20);
      && c.floor == 5 && c.mode == Mode.Idle && c.door == Closed
      && c.queues.Valid() && c.queues.SnapshotUpQueue() == [] && c.queues.SnapshotDownQueue() == []
  {
    FiveCall();
    FiveTrace();
  }

  lemma FiveCall()
    ensures CarCall(Five, Initial(Five), 5) == Ok(FiveUp)
  {
  }

  lemma FiveTrace()
    ensures Run(Five, FiveUp, 20) == FiveAt5
  {
    FiveRun7(7);
    FiveRests();
    RestsOnceIdle(Five, FiveUp, 7, 13);
  }

  lemma FiveRests()
    ensures Consistent(Five, FiveAt5) && FiveAt5.queues.Pending() == {}
  {
    OrderedFloors.ElemsEmpty([]);
  }

  lemma FiveTick1() ensures Tick(Five, FiveUp) == FiveUp.(floor := 2) {}
  lemma FiveTick2() ensures Tick(Five, FiveUp.(floor := 2)) == FiveUp.(floor := 3) {}
  lemma FiveTick3() ensures Tick(Five, FiveUp.(floor := 3)) == FiveUp.(floor := 4) {}
  lemma FiveTick4() ensures Tick(Five, FiveUp.(floor := 4)) == FiveAt5.(mode := DoorOpening, door := Opening, timer := 1) {}
  lemma FiveTick5() ensures Tick(Five, FiveAt5.(mode := DoorOpening, door := Opening, timer := 1)) == FiveAt5.(mode := DoorOpen, door := Open, timer := 1) {}
  lemma FiveTick6() ensures Tick(Five, FiveAt5.(mode := DoorOpen, door := Open, timer := 1)) == FiveAt5.(mode := DoorClosing, door := Closing, timer := 1) {}
  lemma FiveTick7() ensures Tick(Five, FiveAt5.(mode := DoorClosing, door := Closing, timer := 1)) == FiveAt5 {}

  lemma FiveRun1(n: nat)
    requires n == 1
    ensures Run(Five, FiveUp, n) == FiveUp.(floor := 2)
  {
    FiveTick1();
    RunNext(Five, FiveUp, n - 1, FiveUp, FiveUp.(floor := 2));
  }

  lemma FiveRun2(n: nat)
    requires n == 2
    ensures Run(Five, FiveUp, n) == FiveUp.(floor := 3)
  {
    FiveRun1(n - 1);
    FiveTick2();
    RunNext(Five, FiveUp, n - 1, FiveUp.(floor := 2), FiveUp.(floor := 3));
  }

  lemma FiveRun3(n: nat)
    requires n == 3
    ensures Run(Five, FiveUp, n) == FiveUp.(floor := 4)
  {
    FiveRun2(n - 1);
    FiveTick3();
    RunNext(Five, FiveUp, n - 1, FiveUp.(floor := 3), FiveUp.(floor := 4));
  }

  lemma FiveRun4(n: nat)
    requires n == 4
    ensures Run(Five, FiveUp, n) == FiveAt5.(mode := DoorOpening, door := Opening, timer := 1)
  {
    FiveRun3(n - 1);
    FiveTick4();
    RunNext(Five, FiveUp, n - 1, FiveUp.(floor := 4), FiveAt5.(mode := DoorOpening, door := Opening, timer := 1));
  }

  lemma FiveRun5(n: nat)
    requires n == 5
    ensures Run(Five, FiveUp, n) == FiveAt5.(mode := DoorOpen, door := Open, timer := 1)
  {
    FiveRun4(n - 1);
    FiveTick5();
    RunNext(Five, FiveUp, n - 1, FiveAt5.(mode := DoorOpening, door := Opening, timer := 1), FiveAt5.(mode := DoorOpen, door := Open, timer := 1));
  }

  lemma FiveRun6(n: nat)
    requires n == 6
    ensures Run(Five, FiveUp, n) == FiveAt5.(mode := DoorClosing, door := Closing, timer := 1)
  {
    FiveRun5(n - 1);
    FiveTick6();
    RunNext(Five, FiveUp, n - 1, FiveAt5.(mode := DoorOpen, door := Open, timer := 1), FiveAt5.(mode := DoorClosing, door := Closing, timer := 1));
  }

  lemma FiveRun7(n: nat)
    requires n == 7
    ensures Run(Five, FiveUp, n) == FiveAt5
  {
    FiveRun6(n - 1);
    FiveTick7();
    RunNext(Five, FiveUp, n - 1, FiveAt5.(mode := DoorClosing, door := Closing, timer := 1), FiveAt5);
  }

}
