/**
 * What one tick of the elevator engine (class ECElevatorSim) does, as functions
 * of the engine's state: the car's floor and direction and the request list.
 * The methods of Elevator.ElevatorSim are proved to compute exactly these
 * functions; the properties of the engine are the lemmas at the end.
 */
module Scheduling {
  import opened Options
  import opened Requests
  import opened Strategies

  /** The engine's state between two ticks. */
  datatype Snapshot = Snapshot(floor: int, dir: Dir, requests: seq<Request>)

  // ----- countPassengersAtFloor -----

  /**
   * Counted by countPassengersAtFloor: visible, and either a rider to drop at
   * `floor` or a passenger not yet on board whose source is `floor` (the
   * second case does not look at the serviced flag).
   */
  predicate CountedAt(r: Request, floor: int, t: int) {
    r.time <= t
    && ((r.floorReqDone && !r.serviced && floor == r.floorDest) || (!r.floorReqDone && floor == r.floorSrc))
  }

  /** How many requests countPassengersAtFloor counts among `reqs`. */
  function PassengersAt(reqs: seq<Request>, floor: int, t: int): (n: nat)
    ensures n <= |reqs|
    ensures n > 0 <==> exists i :: 0 <= i < |reqs| && CountedAt(reqs[i], floor, t)
    decreases |reqs|
  {
    if reqs == [] then 0
    else
      var last := |reqs| - 1;
      var n := PassengersAt(reqs[..last], floor, t);
      assert forall i :: 0 <= i < last ==> reqs[..last][i] == reqs[i];
      n + (if CountedAt(reqs[last], floor, t) then 1 else 0)
  }

  // ----- handleAllPassengersAtFloor -----

  /** One request after handleAllPassengersAtFloor: drop it if it rides to `floor`, then board it if it waits there. */
  function ServeOne(r: Request, floor: int, t: int): Request {
    if r.time > t then r
    else
      var r1 := if r.floorReqDone && !r.serviced && floor == r.floorDest
                then r.SetArriveTime(t).SetServiced(true) else r;
      if !r1.floorReqDone && floor == r1.floorSrc then r1.SetFloorRequestDone(true) else r1
  }

  /**
   * handleAllPassengersAtFloor on the whole list: exactly the visible riders to
   * `floor` are delivered (arriving at t), exactly the visible waiting passengers
   * at `floor` board, and nothing else changes.
   */
  function ServeAll(reqs: seq<Request>, floor: int, t: int): (r: seq<Request>)
    ensures |r| == |reqs|
    ensures forall i :: 0 <= i < |reqs| ==> r[i].SameTrip(reqs[i])
    ensures forall i :: 0 <= i < |reqs| ==>
      (r[i].serviced <==> reqs[i].serviced || (Visible(reqs[i], t) && reqs[i].floorReqDone && reqs[i].floorDest == floor))
    ensures forall i :: 0 <= i < |reqs| ==>
      r[i].timeArrive == if r[i].serviced && !reqs[i].serviced then t else reqs[i].timeArrive
    ensures forall i :: 0 <= i < |reqs| ==>
      (r[i].floorReqDone <==> reqs[i].floorReqDone || (Visible(reqs[i], t) && reqs[i].floorSrc == floor))
  {
    seq(|reqs|, i requires 0 <= i < |reqs| => ServeOne(reqs[i], floor, t))
  }

  // ----- handlePassengers' guard and hasExistingPickup -----

  /** A passenger boarded at `floor` before tick t and still riding. */
  predicate PickedUpEarlier(r: Request, floor: int, t: int) {
    r.floorReqDone && !r.serviced && r.floorSrc == floor && r.time < t
  }

  /** hasExistingPickup */
  predicate ExistingPickup(reqs: seq<Request>, floor: int, t: int) {
    exists i :: 0 <= i < |reqs| && PickedUpEarlier(reqs[i], floor, t)
  }

  /** A passenger waiting at `floor` whose request is made exactly at tick t. */
  predicate ArrivesNow(r: Request, floor: int, t: int) {
    !r.floorReqDone && r.floorSrc == floor && r.time == t
  }

  /** The first loop of handlePassengers gives up on serving at rest. */
  predicate PickupSuppressed(reqs: seq<Request>, floor: int, t: int) {
    (exists i :: 0 <= i < |reqs| && ArrivesNow(reqs[i], floor, t)) && ExistingPickup(reqs, floor, t)
  }

  /** hasRequests */
  predicate Outstanding(reqs: seq<Request>, t: int) {
    exists i :: 0 <= i < |reqs| && Pending(reqs[i], t)
  }

  // ----- handleUnloading -----

  predicate Unloads(r: Request, floor: int) {
    r.floorReqDone && !r.serviced && r.floorDest == floor
  }

  function UnloadOne(r: Request, floor: int, t: int): Request {
    if Unloads(r, floor) then r.SetServiced(true).SetArriveTime(t) else r
  }

  /**
   * handleUnloading: every rider to `floor` is delivered, visible or not,
   * arriving at t; boarding flags and every other request are unchanged.
   */
  function Unload(reqs: seq<Request>, floor: int, t: int): (r: seq<Request>)
    ensures |r| == |reqs|
    ensures forall i :: 0 <= i < |reqs| ==> r[i].SameTrip(reqs[i]) && r[i].floorReqDone == reqs[i].floorReqDone
    ensures forall i :: 0 <= i < |reqs| ==> (r[i].serviced <==> reqs[i].serviced || Unloads(reqs[i], floor))
    ensures forall i :: 0 <= i < |reqs| ==>
      r[i].timeArrive == if Unloads(reqs[i], floor) then t else reqs[i].timeArrive
  {
    seq(|reqs|, i requires 0 <= i < |reqs| => UnloadOne(reqs[i], floor, t))
  }

  /** handleUnloading reports that it handled a passenger. */
  predicate UnloadsAt(reqs: seq<Request>, floor: int) {
    exists i :: 0 <= i < |reqs| && Unloads(reqs[i], floor)
  }

  // ----- handleLoading -----

  predicate Boardable(r: Request, floor: int, t: int) {
    !r.floorReqDone && !r.serviced && r.floorSrc == floor && r.time <= t
  }

  /** The first request in list order that could board at `floor`. */
  function FirstBoardable(reqs: seq<Request>, floor: int, t: int): (k: Option<nat>)
    ensures k.Some? ==> k.value < |reqs| && Boardable(reqs[k.value], floor, t)
    ensures k.Some? ==> forall j :: 0 <= j < k.value ==> !Boardable(reqs[j], floor, t)
    ensures k.None? <==> forall j :: 0 <= j < |reqs| ==> !Boardable(reqs[j], floor, t)
    decreases |reqs|
  {
    if reqs == [] then None
    else if Boardable(reqs[0], floor, t) then Some(0)
    else match FirstBoardable(reqs[1..], floor, t)
      case None => None
      case Some(k) => Some(k + 1)
  }

  /**
   * handleLoading: unless a passenger was just unloaded or an earlier pickup at
   * this floor is still riding, board the first boardable request, and only it.
   */
  function Load(reqs: seq<Request>, floor: int, t: int, handled: bool): (r: seq<Request>)
    ensures |r| == |reqs|
    ensures handled || ExistingPickup(reqs, floor, t) ==> r == reqs
    ensures forall i :: 0 <= i < |reqs| ==>
      r[i] == reqs[i]
      || (Boardable(reqs[i], floor, t) && r[i] == reqs[i].SetFloorRequestDone(true)
          && forall j :: 0 <= j < i ==> !Boardable(reqs[j], floor, t))
    ensures !handled && !ExistingPickup(reqs, floor, t) && (exists i :: 0 <= i < |reqs| && Boardable(reqs[i], floor, t))
      ==> r != reqs
  {
    if handled then reqs
    else match FirstBoardable(reqs, floor, t)
      case None => reqs
      case Some(k) =>
        if ExistingPickup(reqs, floor, t) then reqs
        else
          assert reqs[k := reqs[k].SetFloorRequestDone(true)][k] != reqs[k];
          reqs[k := reqs[k].SetFloorRequestDone(true)]
  }

  // ----- determineDirection -----

  /** setNewDirection's target: the source while waiting, the destination once on board. */
  function RideTarget(r: Request): int {
    if !r.floorReqDone then r.floorSrc else r.floorDest
  }

  /**
   * The pending request setNewDirection settles on: the smallest request time,
   * and the first in list order among equal times. Written over the list's
   * prefixes, in the order the loop visits them.
   */
  function Earliest(reqs: seq<Request>, t: int): (k: Option<nat>)
    ensures k.Some? ==> k.value < |reqs| && Pending(reqs[k.value], t)
    ensures k.Some? ==> forall j :: 0 <= j < |reqs| && Pending(reqs[j], t) ==> reqs[k.value].time <= reqs[j].time
    ensures k.Some? ==> forall j :: 0 <= j < k.value && Pending(reqs[j], t) ==> reqs[k.value].time < reqs[j].time
    ensures k.None? <==> !Outstanding(reqs, t)
    decreases |reqs|
  {
    if reqs == [] then None
    else
      var last := |reqs| - 1;
      var prev := Earliest(reqs[..last], t);
      assert forall i :: 0 <= i < last ==> reqs[..last][i] == reqs[i];
      if Pending(reqs[last], t) && (prev.None? || reqs[last].time < reqs[prev.value].time)
      then Some(last)
      else prev
  }

  /** Up, Down or Stopped toward `target`; -1 means no target. */
  function Toward(floor: int, target: int): Dir {
    if target != -1 then
      if target > floor then Up
      else if target < floor then Down
      else Stopped
    else Stopped
  }

  /** setNewDirection */
  function NewDirection(floor: int, reqs: seq<Request>, t: int): Dir {
    var target := match Earliest(reqs, t)
      case None => -1
      case Some(k) => RideTarget(reqs[k]);
    Toward(floor, target)
  }

  /** shouldContinueCurrentDirection */
  predicate Continues(dir: Dir, floor: int, reqs: seq<Request>, t: int) {
    dir != Stopped && HasMoreAhead(StrategyFor(dir), reqs, floor, t)
  }

  /** determineDirection */
  function NextDirection(floor: int, dir: Dir, reqs: seq<Request>, t: int): Dir {
    if Continues(dir, floor, reqs, t) then dir else NewDirection(floor, reqs, t)
  }

  // ----- moveElevator -----

  /** moveElevator: one floor in the car's direction, never past floor 1 or numFloors. */
  function Moved(numFloors: int, floor: int, dir: Dir): (f: int)
    ensures floor - 1 <= f <= floor + 1
    ensures dir == Stopped ==> f == floor
    ensures f > floor ==> dir == Up && f <= numFloors
    ensures f < floor ==> dir == Down && f >= 1
    ensures dir == Up && floor < numFloors ==> f == floor + 1
    ensures dir == Down && floor > 1 ==> f == floor - 1
  {
    if dir == Up && floor < numFloors then floor + 1
    else if dir == Down && floor > 1 then floor - 1
    else floor
  }

  // ----- one tick -----

  /** handlePassengers takes the tick: nothing suppresses the pickup and someone is to be served here. */
  predicate ServesAtRest(s: Snapshot, t: int) {
    !PickupSuppressed(s.requests, s.floor, t) && PassengersAt(s.requests, s.floor, t) != 0
  }

  /** handlePassengers when it returns true: serve everyone here, then re-decide the direction. */
  function AtRest(s: Snapshot, t: int): Snapshot {
    var reqs := ServeAll(s.requests, s.floor, t);
    Snapshot(s.floor, NextDirection(s.floor, s.dir, reqs, t), reqs)
  }

  /** handleStop: unload, load at most one, re-decide the direction. */
  function Stop(s: Snapshot, t: int): Snapshot {
    var unloaded := Unload(s.requests, s.floor, t);
    var loaded := Load(unloaded, s.floor, t, UnloadsAt(s.requests, s.floor));
    Snapshot(s.floor, NextDirection(s.floor, s.dir, loaded, t), loaded)
  }

  /** updateElevator: handleStop, move one floor, re-decide the direction. */
  function Update(numFloors: int, s: Snapshot, t: int): Snapshot {
    var stopped := Stop(s, t);
    var f := Moved(numFloors, stopped.floor, stopped.dir);
    Snapshot(f, NextDirection(f, stopped.dir, stopped.requests, t), stopped.requests)
  }

  /** Simulate: one tick at time t. */
  function Tick(numFloors: int, s: Snapshot, t: int): Snapshot {
    if ServesAtRest(s, t) then AtRest(s, t) else Update(numFloors, s, t)
  }

  /**
   * A run of n ticks at times from, from + 1, ...: the driving loop calls
   * Simulate once per tick with the current tick as its argument.
   */
  function Run(numFloors: int, s: Snapshot, from: int, n: nat): Snapshot
    decreases n
  {
    if n == 0 then s else Run(numFloors, Tick(numFloors, s, from), from + 1, n - 1)
  }

  // ----- properties -----

  /**
   * How one request may change during a tick at `floor` and time t: its trip is
   * fixed; boarded and serviced only ever become true; it boards only when
   * visible and waiting at `floor`; it is delivered only if already on board
   * and riding to `floor`, arriving at t; otherwise its arrival time stays.
   */
  predicate Progress(o: Request, n: Request, floor: int, t: int) {
    n.SameTrip(o)
    && (o.floorReqDone ==> n.floorReqDone)
    && (o.serviced ==> n.serviced)
    && (n.floorReqDone && !o.floorReqDone ==> n.time <= t && n.floorSrc == floor)
    && (n.serviced && !o.serviced ==> o.floorReqDone && n.floorDest == floor && n.timeArrive == t)
    && (n.serviced == o.serviced ==> n.timeArrive == o.timeArrive)
  }

  predicate Boarded(o: Request, n: Request) {
    !o.floorReqDone && n.floorReqDone
  }

  lemma StopProgress(s: Snapshot, t: int)
    ensures |Stop(s, t).requests| == |s.requests|
    ensures forall i :: 0 <= i < |s.requests| ==> Progress(s.requests[i], Stop(s, t).requests[i], s.floor, t)
    ensures forall i, j ::
      (0 <= i < |s.requests| && 0 <= j < |s.requests|
       && Boarded(s.requests[i], Stop(s, t).requests[i]) && Boarded(s.requests[j], Stop(s, t).requests[j]))
      ==> i == j
  {
  }

  /** Every request progresses as Progress allows during any tick. */
  lemma TickProgress(numFloors: int, s: Snapshot, t: int)
    ensures |Tick(numFloors, s, t).requests| == |s.requests|
    ensures forall i :: 0 <= i < |s.requests| ==> Progress(s.requests[i], Tick(numFloors, s, t).requests[i], s.floor, t)
  {
  }

  /** A tick that does not serve at rest boards at most one passenger. */
  lemma UpdateBoardsAtMostOne(numFloors: int, s: Snapshot, t: int)
    requires !ServesAtRest(s, t)
    ensures forall i, j ::
      (0 <= i < |s.requests| && 0 <= j < |s.requests|
       && Boarded(s.requests[i], Tick(numFloors, s, t).requests[i])
       && Boarded(s.requests[j], Tick(numFloors, s, t).requests[j]))
      ==> i == j
  {
  }

  /** Consistent request states stay consistent through a tick at a time not earlier than the last one. */
  lemma TickKeepsConsistent(numFloors: int, s: Snapshot, t0: int, t: int)
    requires t0 <= t
    requires forall i :: 0 <= i < |s.requests| ==> Consistent(s.requests[i], t0)
    ensures forall i :: 0 <= i < |Tick(numFloors, s, t).requests| ==> Consistent(Tick(numFloors, s, t).requests[i], t)
  {
  }

  /** The car moves at most one floor per tick and never leaves floors 1..numFloors once inside. */
  lemma TickFloorBounds(numFloors: int, s: Snapshot, t: int)
    ensures s.floor - 1 <= Tick(numFloors, s, t).floor <= s.floor + 1
    ensures 1 <= s.floor <= numFloors ==> 1 <= Tick(numFloors, s, t).floor <= numFloors
    ensures ServesAtRest(s, t) ==> Tick(numFloors, s, t).floor == s.floor
  {
  }

  /** With nothing pending, the direction is decided as Stopped. */
  lemma IdleStops(floor: int, dir: Dir, reqs: seq<Request>, t: int)
    requires !Outstanding(reqs, t)
    ensures NextDirection(floor, dir, reqs, t) == Stopped
  {
  }

  /** At the end of a tick with nothing pending, the car is Stopped. */
  lemma TickIdleStops(numFloors: int, s: Snapshot, t: int)
    requires !Outstanding(Tick(numFloors, s, t).requests, t)
    ensures Tick(numFloors, s, t).dir == Stopped
  {
  }

  /** The car only heads Up (Down) when some pending request asks for a floor above (below) it. */
  lemma NextDirectionHasReason(floor: int, dir: Dir, reqs: seq<Request>, t: int)
    ensures NextDirection(floor, dir, reqs, t) == Up ==> HasMoreAhead(UpStrategy, reqs, floor, t)
    ensures NextDirection(floor, dir, reqs, t) == Down ==> HasMoreAhead(DownStrategy, reqs, floor, t)
  {
  }

  /**
   * "Earliest request wins": the new direction heads for the pending request
   * with the smallest time, the first in list order among equal times.
   */
  lemma NewDirectionTowardEarliest(floor: int, reqs: seq<Request>, t: int, k: nat)
    requires k < |reqs| && Pending(reqs[k], t)
    requires forall j :: 0 <= j < |reqs| && Pending(reqs[j], t) ==> reqs[k].time <= reqs[j].time
    requires forall j :: 0 <= j < k && Pending(reqs[j], t) ==> reqs[k].time < reqs[j].time
    ensures NewDirection(floor, reqs, t) == Toward(floor, RideTarget(reqs[k]))
  {
  }

  /** A moving car keeps its direction while its strategy sees work ahead. */
  lemma KeepsDirectionWhileWorkAhead(floor: int, dir: Dir, reqs: seq<Request>, t: int)
    requires dir != Stopped && HasMoreAhead(StrategyFor(dir), reqs, floor, t)
    ensures NextDirection(floor, dir, reqs, t) == dir
  {
  }

  /**
   * Once every delivered request is on board, countPassengersAtFloor finds
   * someone exactly when stopAtFloor would stop.
   */
  lemma CountMatchesStop(reqs: seq<Request>, floor: int, t: int)
    requires forall i :: 0 <= i < |reqs| ==> (reqs[i].serviced ==> reqs[i].floorReqDone)
    ensures PassengersAt(reqs, floor, t) > 0 <==> HasWorkAt(reqs, floor, t)
  {
  }

  /**
   * The maintenance markers name floors -1 and 0, outside the shaft, so while
   * the car is in the shaft such a request is never boarded nor delivered.
   */
  lemma MaintenanceNeverBoards(numFloors: int, s: Snapshot, t: int, i: nat)
    requires 1 <= s.floor && i < |s.requests|
    requires s.requests[i].IsMaintenanceStart() || s.requests[i].IsMaintenanceEnd()
    requires !s.requests[i].floorReqDone && !s.requests[i].serviced
    ensures !Tick(numFloors, s, t).requests[i].floorReqDone && !Tick(numFloors, s, t).requests[i].serviced
  {
  }

  /**
   * A pending maintenance marker not on board asks for floor -1 or 0, below
   * every floor of the shaft, so a car heading Down keeps heading Down.
   */
  lemma MaintenancePinsDown(floor: int, reqs: seq<Request>, t: int, i: nat)
    requires 1 <= floor && i < |reqs| && Pending(reqs[i], t) && !reqs[i].floorReqDone
    requires reqs[i].IsMaintenanceStart() || reqs[i].IsMaintenanceEnd()
    ensures NextDirection(floor, Down, reqs, t) == Down
  {
    assert Ahead(DownStrategy, reqs[i], floor, t);
  }

  /**
   * When the earliest pending request is a maintenance start not on board, its
   * target -1 is read as "no target" and the new direction is Stopped, even
   * while other passengers wait.
   */
  lemma MaintenanceStartStopsNewDirection(floor: int, reqs: seq<Request>, t: int, k: nat)
    requires k < |reqs| && Pending(reqs[k], t)
    requires forall j :: 0 <= j < |reqs| && Pending(reqs[j], t) ==> reqs[k].time <= reqs[j].time
    requires forall j :: 0 <= j < k && Pending(reqs[j], t) ==> reqs[k].time < reqs[j].time
    requires reqs[k].IsMaintenanceStart() && !reqs[k].floorReqDone
    ensures NewDirection(floor, reqs, t) == Stopped
  {
    NewDirectionTowardEarliest(floor, reqs, t, k);
  }

  /** The car is in the shaft and every request is consistent at tick t. */
  predicate Healthy(numFloors: int, s: Snapshot, t: int) {
    1 <= s.floor <= numFloors && forall i :: 0 <= i < |s.requests| ==> Consistent(s.requests[i], t)
  }

  /** `n` is `o` a number of ticks later: same trips, flags never reset, a delivery's arrival time kept. */
  predicate Advanced(o: seq<Request>, n: seq<Request>) {
    |n| == |o|
    && forall i :: 0 <= i < |o| ==>
      n[i].SameTrip(o[i])
      && (o[i].floorReqDone ==> n[i].floorReqDone)
      && (o[i].serviced ==> n[i].serviced && n[i].timeArrive == o[i].timeArrive)
  }

  lemma {:induction false} AdvancedTransitive(a: seq<Request>, b: seq<Request>, c: seq<Request>)
    requires Advanced(a, b) && Advanced(b, c)
    ensures Advanced(a, c)
  {
  }

  lemma TickKeepsHealthy(numFloors: int, s: Snapshot, t: int)
    requires Healthy(numFloors, s, t - 1)
    ensures Healthy(numFloors, Tick(numFloors, s, t), t)
    ensures Advanced(s.requests, Tick(numFloors, s, t).requests)
  {
    TickProgress(numFloors, s, t);
    TickKeepsConsistent(numFloors, s, t - 1, t);
    TickFloorBounds(numFloors, s, t);
  }

  /**
   * Over a whole run started inside the shaft with consistent requests, the
   * car stays in 1..numFloors, the requests stay consistent at the last tick,
   * no trip changes and no boarded or serviced flag is ever reset.
   */
  lemma {:induction false} RunKeepsHealthy(numFloors: int, s: Snapshot, from: int, n: nat)
    requires Healthy(numFloors, s, from - 1)
    ensures Healthy(numFloors, Run(numFloors, s, from, n), from + n - 1)
    ensures Advanced(s.requests, Run(numFloors, s, from, n).requests)
    decreases n
  {
    if n > 0 {
      var next := Tick(numFloors, s, from);
      TickKeepsHealthy(numFloors, s, from);
      RunKeepsHealthy(numFloors, next, from + 1, n - 1);
      var last := Run(numFloors, next, from + 1, n - 1);
      assert Run(numFloors, s, from, n) == last;
      AdvancedTransitive(s.requests, next.requests, last.requests);
    }
  }
}
