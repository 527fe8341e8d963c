/**
 * Two concrete runs of the engine in a five-floor building, each started from
 * the constructor's state (floor 1, Stopped) at tick 0: a single ride from
 * floor 1 to floor 3, and two passengers crossing between floors 1 and 5.
 * Small lemmas fix one or a few ticks each; RideRun and CrossingRun chain them
 * into the whole run.
 */
module Scenarios {
  import opened Options
  import opened Requests
  import opened Strategies
  import opened Scheduling

  /** Tick 0: the passenger waiting at floor 1 boards at once and the car heads up. */
  lemma RideBoardsAtTickZero()
    ensures Tick(5, Snapshot(1, Stopped, [NewRequest(0, 1, 3)]), 0)
         == Snapshot(1, Up, [Request(0, 1, 3, true, false, -1)])
  {
    var reqs := [NewRequest(0, 1, 3)];
    assert CountedAt(reqs[0], 1, 0);
    assert !ExistingPickup(reqs, 1, 0);
    var served := ServeAll(reqs, 1, 0);
    assert served == [Request(0, 1, 3, true, false, -1)];
    assert Earliest(served, 0) == Some(0);
  }

  /** Ticks 1 and 2: the car climbs one floor per tick and stops on reaching floor 3. */
  lemma RideClimbs()
    ensures Tick(5, Snapshot(1, Up, [Request(0, 1, 3, true, false, -1)]), 1)
         == Snapshot(2, Up, [Request(0, 1, 3, true, false, -1)])
    ensures Tick(5, Snapshot(2, Up, [Request(0, 1, 3, true, false, -1)]), 2)
         == Snapshot(3, Stopped, [Request(0, 1, 3, true, false, -1)])
  {
    var reqs := [Request(0, 1, 3, true, false, -1)];
    assert !CountedAt(reqs[0], 1, 1) && !CountedAt(reqs[0], 2, 2);
    assert Unload(reqs, 1, 1) == reqs && Unload(reqs, 2, 2) == reqs;
    assert !UnloadsAt(reqs, 1) && !UnloadsAt(reqs, 2);
    assert FirstBoardable(reqs, 1, 1) == None && FirstBoardable(reqs, 2, 2) == None;
    assert Ahead(UpStrategy, reqs[0], 1, 1) && Ahead(UpStrategy, reqs[0], 2, 1);
    assert Ahead(UpStrategy, reqs[0], 2, 2);
    assert !HasMoreAhead(UpStrategy, reqs, 3, 2);
    assert Earliest(reqs, 2) == Some(0);
  }

  /** Tick 3: the passenger is delivered at floor 3, arriving at tick 3, and the car stays stopped. */
  lemma RideArrivesAtTickThree()
    ensures Tick(5, Snapshot(3, Stopped, [Request(0, 1, 3, true, false, -1)]), 3)
         == Snapshot(3, Stopped, [Request(0, 1, 3, true, true, 3)])
  {
    var reqs := [Request(0, 1, 3, true, false, -1)];
    assert CountedAt(reqs[0], 3, 3);
    var served := ServeAll(reqs, 3, 3);
    assert served == [Request(0, 1, 3, true, true, 3)];
    assert Earliest(served, 3) == None;
  }

  /** The single ride as one run of ticks 0 to 3 from the constructor's state. */
  lemma {:induction false} RideRun()
    ensures Run(5, Snapshot(1, Stopped, [NewRequest(0, 1, 3)]), 0, 4)
         == Snapshot(3, Stopped, [Request(0, 1, 3, true, true, 3)])
  {
    var riding := [Request(0, 1, 3, true, false, -1)];
    RideBoardsAtTickZero();
    RideClimbs();
    RideArrivesAtTickThree();
    calc {
      Run(5, Snapshot(1, Stopped, [NewRequest(0, 1, 3)]), 0, 4);
      Run(5, Snapshot(1, Up, riding), 1, 3);
      Run(5, Snapshot(2, Up, riding), 2, 2);
      Run(5, Snapshot(3, Stopped, riding), 3, 1);
      Run(5, Snapshot(3, Stopped, [Request(0, 1, 3, true, true, 3)]), 4, 0);
    }
  }

  /** Two passengers requested at tick 0: one going from 1 to 5, one waiting at 5 to go to 1. */
  function CrossingStart(): seq<Request> {
    [NewRequest(0, 1, 5), NewRequest(0, 5, 1)]
  }

  /** The same list once the first passenger has boarded. */
  function CrossingRiding(): seq<Request> {
    [Request(0, 1, 5, true, false, -1), NewRequest(0, 5, 1)]
  }

  /** Tick 0: the first passenger boards at floor 1 and the car heads up. */
  lemma CrossingBoardsAtTickZero()
    ensures Tick(5, Snapshot(1, Stopped, CrossingStart()), 0) == Snapshot(1, Up, CrossingRiding())
  {
    var reqs := CrossingStart();
    assert CountedAt(reqs[0], 1, 0);
    assert !ExistingPickup(reqs, 1, 0);
    var served := ServeAll(reqs, 1, 0);
    assert served == CrossingRiding();
    assert Earliest(served, 0) == Some(0);
  }

  /**
   * Ticks 1 to 3: passing floors 1 to 3 the car keeps climbing, since the rider
   * asks for floor 5; it does not turn back for anyone.
   */
  lemma CrossingKeepsClimbing(f: int)
    requires 1 <= f <= 3
    ensures Tick(5, Snapshot(f, Up, CrossingRiding()), f) == Snapshot(f + 1, Up, CrossingRiding())
  {
    var reqs := CrossingRiding();
    assert !CountedAt(reqs[0], f, f) && !CountedAt(reqs[1], f, f);
    assert !ArrivesNow(reqs[1], f, f);
    assert Unload(reqs, f, f) == reqs;
    assert !UnloadsAt(reqs, f);
    assert FirstBoardable(reqs, f, f) == None;
    assert Ahead(UpStrategy, reqs[0], f, f) && Ahead(UpStrategy, reqs[0], f + 1, f);
  }

  /**
   * Tick 4: the car reaches floor 5; nothing lies above, and the earliest
   * request (the rider, first in list order among equal times) targets floor 5,
   * so the car stops.
   */
  lemma CrossingReachesTop()
    ensures Tick(5, Snapshot(4, Up, CrossingRiding()), 4) == Snapshot(5, Stopped, CrossingRiding())
  {
    var reqs := CrossingRiding();
    assert !CountedAt(reqs[0], 4, 4) && !CountedAt(reqs[1], 4, 4);
    assert !ArrivesNow(reqs[1], 4, 4);
    assert Unload(reqs, 4, 4) == reqs;
    assert !UnloadsAt(reqs, 4);
    assert FirstBoardable(reqs, 4, 4) == None;
    assert Ahead(UpStrategy, reqs[0], 4, 4);
    assert !HasMoreAhead(UpStrategy, reqs, 5, 4);
    assert Earliest(reqs, 4) == Some(0);
  }

  /** Tick 5: both passengers are served at once and the car turns down for the second. */
  lemma CrossingTurnsAtTop()
    ensures Tick(5, Snapshot(5, Stopped, CrossingRiding()), 5)
         == Snapshot(5, Down, [Request(0, 1, 5, true, true, 5), Request(0, 5, 1, true, false, -1)])
  {
    var reqs := CrossingRiding();
    assert CountedAt(reqs[0], 5, 5);
    assert !ArrivesNow(reqs[1], 5, 5);
    var served := ServeAll(reqs, 5, 5);
    assert served == [Request(0, 1, 5, true, true, 5), Request(0, 5, 1, true, false, -1)];
    assert Earliest(served, 5) == Some(1);
  }

  /** The crossing as one run of ticks 0 to 5 from the constructor's state. */
  lemma {:induction false} CrossingRun()
    ensures Run(5, Snapshot(1, Stopped, CrossingStart()), 0, 6)
         == Snapshot(5, Down, [Request(0, 1, 5, true, true, 5), Request(0, 5, 1, true, false, -1)])
  {
    CrossingBoardsAtTickZero();
    CrossingKeepsClimbing(1);
    CrossingKeepsClimbing(2);
    CrossingKeepsClimbing(3);
    CrossingReachesTop();
    CrossingTurnsAtTop();
    calc {
      Run(5, Snapshot(1, Stopped, CrossingStart()), 0, 6);
      Run(5, Snapshot(1, Up, CrossingRiding()), 1, 5);
      Run(5, Snapshot(2, Up, CrossingRiding()), 2, 4);
      Run(5, Snapshot(3, Up, CrossingRiding()), 3, 3);
      Run(5, Snapshot(4, Up, CrossingRiding()), 4, 2);
      Run(5, Snapshot(5, Stopped, CrossingRiding()), 5, 1);
      Run(5, Snapshot(5, Down, [Request(0, 1, 5, true, true, 5), Request(0, 5, 1, true, false, -1)]), 6, 0);
    }
  }
}
