/**
 * The direction of the car and the two direction strategies (UpStrategy and
 * DownStrategy). The strategies hold no state: each query is a read-only scan
 * of the request list, written here as a method with a loop and specified by
 * an existential predicate over the list.
 */
module Strategies {
  import opened Requests

  datatype Dir = Stopped | Up | Down

  datatype Strategy = UpStrategy | DownStrategy

  /** The fixed direction a strategy stands for. */
  function GetDirection(s: Strategy): (d: Dir)
    ensures d != Stopped
    ensures StrategyFor(d) == s
  {
    match s
    case UpStrategy => Up
    case DownStrategy => Down
  }

  /** The strategy the engine consults for a moving car: Up's for Up, Down's otherwise. */
  function StrategyFor(d: Dir): Strategy {
    if d == Up then UpStrategy else DownStrategy
  }

  /** Work for the car at `floor`: a rider to drop there or a visible waiting passenger to pick up. */
  predicate WorkAt(r: Request, floor: int, t: int) {
    !r.serviced && r.time <= t
    && ((r.floorReqDone && r.floorDest == floor) || (!r.floorReqDone && r.floorSrc == floor))
  }

  predicate HasWorkAt(reqs: seq<Request>, floor: int, t: int) {
    exists i :: 0 <= i < |reqs| && WorkAt(reqs[i], floor, t)
  }

  /** A pending request whose requested floor lies beyond `floor` in the strategy's direction. */
  predicate Ahead(s: Strategy, r: Request, floor: int, t: int) {
    Pending(r, t)
    && match s
       case UpStrategy => r.RequestedFloor() > floor
       case DownStrategy => r.RequestedFloor() < floor
  }

  predicate HasMoreAhead(s: Strategy, reqs: seq<Request>, floor: int, t: int) {
    exists i :: 0 <= i < |reqs| && Ahead(s, reqs[i], floor, t)
  }

  /** stopAtFloor: both strategies give the same answer, whatever `s` is. */
  method StopAtFloor(s: Strategy, floor: int, requests: seq<Request>, currTime: int) returns (b: bool)
    ensures b <==> HasWorkAt(requests, floor, currTime)
  {
    var i := 0;
    while i < |requests|
      invariant 0 <= i <= |requests|
      invariant forall j :: 0 <= j < i ==> !WorkAt(requests[j], floor, currTime)
    {
      var req := requests[i];
      if !req.serviced && req.time <= currTime {
        if req.floorReqDone && !req.serviced && req.floorDest == floor {
          return true;
        }
        if !req.floorReqDone && req.floorSrc == floor {
          return true;
        }
      }
      i := i + 1;
    }
    return false;
  }

  /** containsMoreRequests: some pending request lies strictly beyond currFloor. */
  method ContainsMoreRequests(s: Strategy, currFloor: int, requests: seq<Request>, currTime: int)
    returns (b: bool)
    ensures b <==> HasMoreAhead(s, requests, currFloor, currTime)
  {
    var i := 0;
    while i < |requests|
      invariant 0 <= i <= |requests|
      invariant forall j :: 0 <= j < i ==> !Ahead(s, requests[j], currFloor, currTime)
    {
      var req := requests[i];
      if !req.serviced && req.time <= currTime {
        var targetFloor := req.RequestedFloor();
        if (s == UpStrategy && targetFloor > currFloor) || (s == DownStrategy && targetFloor < currFloor) {
          return true;
        }
      }
      i := i + 1;
    }
    return false;
  }

  /** With nothing pending, neither strategy sees work ahead. */
  lemma NothingAheadWhenIdle(s: Strategy, reqs: seq<Request>, floor: int, t: int)
    requires forall i :: 0 <= i < |reqs| ==> !Pending(reqs[i], t)
    ensures !HasMoreAhead(s, reqs, floor, t) && !HasWorkAt(reqs, floor, t)
  {
  }
}
