/**
 * One passenger request of the elevator simulation (class ECElevatorSimRequest).
 *
 * A request goes through three stages: waiting at floorSrc, riding to floorDest
 * (floorReqDone), and delivered (serviced). Two special requests mark a maintenance
 * window: floorSrc = floorDest = -1 starts it, floorSrc = floorDest = 0 ends it.
 *
 * The record is a value: time, floorSrc and floorDest have no setter, and each
 * setter returns the record with exactly its own field replaced.
 */
module Requests {

  datatype Request = Request(
    time: int,           // tick at which the request is made
    floorSrc: int,       // floor the passenger waits at
    floorDest: int,      // floor the passenger wants to go to
    floorReqDone: bool,  // the passenger is inside the car
    serviced: bool,      // the passenger has arrived
    timeArrive: int      // tick of arrival, -1 until then
  ) {

    /** The copy constructor: all six fields carried over. */
    function Copy(): (r: Request)
      ensures r.time == time && r.floorSrc == floorSrc && r.floorDest == floorDest
      ensures r.floorReqDone == floorReqDone && r.serviced == serviced && r.timeArrive == timeArrive
    {
      Request(time, floorSrc, floorDest, floorReqDone, serviced, timeArrive)
    }

    predicate IsGoingUp() {
      floorDest >= floorSrc
    }

    function SetFloorRequestDone(f: bool): (r: Request)
      ensures r.floorReqDone == f
      ensures r.SameTrip(this) && r.serviced == serviced && r.timeArrive == timeArrive
    {
      this.(floorReqDone := f)
    }

    function SetServiced(f: bool): (r: Request)
      ensures r.serviced == f
      ensures r.SameTrip(this) && r.floorReqDone == floorReqDone && r.timeArrive == timeArrive
    {
      this.(serviced := f)
    }

    function SetArriveTime(t: int): (r: Request)
      ensures r.timeArrive == t
      ensures r.SameTrip(this) && r.floorReqDone == floorReqDone && r.serviced == serviced
    {
      this.(timeArrive := t)
    }

    /** The fields fixed at construction: time, source and destination. */
    predicate SameTrip(other: Request) {
      time == other.time && floorSrc == other.floorSrc && floorDest == other.floorDest
    }

    /**
     * The floor this request still needs: the source while waiting, the
     * destination while riding, -1 once delivered.
     */
    function RequestedFloor(): int {
      if serviced then -1
      else if floorReqDone then floorDest
      else floorSrc
    }

    predicate IsMaintenanceStart(): (b: bool)
      ensures b ==> !IsMaintenanceEnd()
    {
      floorSrc == -1 && floorDest == -1
    }

    predicate IsMaintenanceEnd() {
      floorSrc == 0 && floorDest == 0
    }
  }

  /** The three-argument constructor: a request not yet picked up nor delivered. */
  function NewRequest(time: int, floorSrc: int, floorDest: int): (r: Request)
    ensures r.time == time && r.floorSrc == floorSrc && r.floorDest == floorDest
    ensures !r.floorReqDone && !r.serviced && r.timeArrive == -1
  {
    Request(time, floorSrc, floorDest, false, false, -1)
  }

  /** A request is visible to the scheduler once its time has come. */
  predicate Visible(r: Request, t: int) {
    r.time <= t
  }

  /** Visible and not yet delivered: work the car still owes. */
  predicate Pending(r: Request, t: int) {
    !r.serviced && r.time <= t
  }

  /**
   * The lifecycle flags agree with each other at tick t: only a boarded
   * request is delivered, only a visible one is boarded, and the arrival
   * time is set exactly when delivered, at or after the request time.
   */
  predicate Consistent(r: Request, t: int) {
    (r.serviced ==> r.floorReqDone && r.time <= r.timeArrive <= t)
    && (r.floorReqDone ==> r.time <= t)
    && (!r.serviced ==> r.timeArrive == -1)
  }

  /** The requested floor walks through the three stages: source, destination, -1. */
  lemma RequestedFloorLifecycle(time: int, src: int, dest: int)
    ensures NewRequest(time, src, dest).RequestedFloor() == src
    ensures NewRequest(time, src, dest).SetFloorRequestDone(true).RequestedFloor() == dest
    ensures NewRequest(time, src, dest).SetFloorRequestDone(true).SetServiced(true).RequestedFloor() == -1
  {
  }

  /** A fresh request is consistent at every tick. */
  lemma NewRequestConsistent(time: int, src: int, dest: int, t: int)
    ensures Consistent(NewRequest(time, src, dest), t)
  {
  }

  /** Going up means boarding does not lower the floor the request asks for. */
  lemma GoingUpIffRideRises(r: Request)
    requires !r.serviced && !r.floorReqDone
    ensures r.IsGoingUp() <==> r.SetFloorRequestDone(true).RequestedFloor() >= r.RequestedFloor()
  {
  }
}
