/**
 * The elevator engine (class ECElevatorSim). It owns the car's floor and
 * direction and works in place on the caller's request list, held here as the
 * same array the caller passed in (the C++ class keeps a reference to the
 * caller's vector). Each method mirrors one helper of the source and is proved
 * to compute the matching function of module Scheduling.
 */
module Elevator {
  import opened Options
  import opened Requests
  import opened Strategies
  import opened Scheduling

  class ElevatorSim {
    const numFloors: int
    var currFloor: int
    var currDir: Dir
    const requests: array<Request>

    /** The engine's state as a value. */
    ghost function Snap(): Snapshot
      reads this, requests
    {
      Snapshot(currFloor, currDir, requests[..])
    }

    /** The car starts at floor 1, stopped, sharing the caller's request list. */
    constructor (numFloorsIn: int, listRequests: array<Request>)
      ensures numFloors == numFloorsIn && requests == listRequests
      ensures currFloor == 1 && currDir == Stopped
    {
      numFloors := numFloorsIn;
      currFloor := 1;
      currDir := Stopped;
      requests := listRequests;
    }

    method GetNumFloors() returns (n: int)
      ensures n == numFloors
    {
      return numFloors;
    }

    method GetCurrFloor() returns (f: int)
      ensures f == currFloor
    {
      return currFloor;
    }

    method SetCurrFloor(f: int)
      modifies this`currFloor
      ensures currFloor == f
    {
      currFloor := f;
    }

    method GetCurrDir() returns (d: Dir)
      ensures d == currDir
    {
      return currDir;
    }

    method SetCurrDir(dir: Dir)
      modifies this`currDir
      ensures currDir == dir
    {
      currDir := dir;
    }

    /** The caller's own list, not a copy. */
    method GetRequests() returns (r: array<Request>)
      ensures r == requests
    {
      return requests;
    }

    /** One tick at time lenSim (the caller passes the current tick). */
    method Simulate(lenSim: int)
      modifies this, requests
      ensures Snap() == Tick(numFloors, old(Snap()), lenSim)
      ensures 1 <= old(currFloor) <= numFloors ==> 1 <= currFloor <= numFloors
      ensures forall i :: 0 <= i < requests.Length ==> Progress(old(requests[i]), requests[i], old(currFloor), lenSim)
      ensures !Outstanding(requests[..], lenSim) ==> currDir == Stopped
    {
      ghost var before := Snap();
      var handled := HandlePassengers(lenSim);
      if !handled {
        UpdateElevator(lenSim);
      }
      TickProgress(numFloors, before, lenSim);
      TickFloorBounds(numFloors, before, lenSim);
      if !Outstanding(requests[..], lenSim) {
        TickIdleStops(numFloors, before, lenSim);
      }
    }

    /** Serve everyone at the current floor at once, unless a pickup here is suppressed. */
    method HandlePassengers(time: int) returns (handled: bool)
      modifies this, requests
      ensures handled == ServesAtRest(old(Snap()), time)
      ensures Snap() == if handled then AtRest(old(Snap()), time) else old(Snap())
    {
      var i := 0;
      while i < requests.Length
        invariant 0 <= i <= requests.Length
        invariant Snap() == old(Snap())
        invariant !ExistingPickup(requests[..], currFloor, time)
          || forall j :: 0 <= j < i ==> !ArrivesNow(requests[j], currFloor, time)
      {
        var req := requests[i];
        if !req.floorReqDone && req.floorSrc == currFloor && req.time == time {
          // the inner loop of the source is the same scan as hasExistingPickup
          var earlier := HasExistingPickup(currFloor, time);
          if earlier {
            assert ArrivesNow(requests[..][i], currFloor, time);
            return false;
          }
        }
        i := i + 1;
      }
      var passengersAtFloor := CountPassengersAtFloor(time);
      if passengersAtFloor == 0 {
        return false;
      }
      HandleAllPassengersAtFloor(time);
      DetermineDirection(time);
      return true;
    }

    method CountPassengersAtFloor(time: int) returns (count: nat)
      ensures count == PassengersAt(requests[..], currFloor, time)
    {
      count := 0;
      var i := 0;
      while i < requests.Length
        invariant 0 <= i <= requests.Length
        invariant count == PassengersAt(requests[..i], currFloor, time)
      {
        assert requests[..i + 1][..i] == requests[..i];
        var req := requests[i];
        if req.time <= time {
          if (req.floorReqDone && !req.serviced && currFloor == req.floorDest)
            || (!req.floorReqDone && currFloor == req.floorSrc) {
            count := count + 1;
          }
        }
        i := i + 1;
      }
      assert requests[..i] == requests[..];
    }

    method HandleAllPassengersAtFloor(time: int)
      modifies requests
      ensures requests[..] == ServeAll(old(requests[..]), currFloor, time)
    {
      var i := 0;
      while i < requests.Length
        invariant 0 <= i <= requests.Length
        invariant forall j :: 0 <= j < i ==> requests[j] == ServeOne(old(requests[j]), currFloor, time)
        invariant forall j :: i <= j < requests.Length ==> requests[j] == old(requests[j])
      {
        var req := requests[i];
        if req.time <= time {
          if req.floorReqDone && !req.serviced && currFloor == req.floorDest {
            req := req.SetArriveTime(time).SetServiced(true);
          }
          if !req.floorReqDone && currFloor == req.floorSrc {
            req := req.SetFloorRequestDone(true);
          }
          requests[i] := req;
        }
        i := i + 1;
      }
    }

    method DetermineDirection(currTime: int)
      modifies this`currDir
      ensures currDir == NextDirection(currFloor, old(currDir), requests[..], currTime)
    {
      var keep := ShouldContinueCurrentDirection(currTime);
      if keep {
        return;
      }
      SetNewDirection(currTime);
    }

    method ShouldContinueCurrentDirection(currTime: int) returns (keep: bool)
      ensures keep == Continues(currDir, currFloor, requests[..], currTime)
    {
      if currDir == Stopped {
        return false;
      }
      var strategy := if currDir == Up then UpStrategy else DownStrategy;
      keep := ContainsMoreRequests(strategy, currFloor, requests[..], currTime);
    }

    /** Head for the earliest pending request; Stopped if there is none. */
    method SetNewDirection(currTime: int)
      modifies this`currDir
      ensures currDir == NewDirection(currFloor, requests[..], currTime)
    {
      var earliestTime: Option<int> := None;   // "none yet" in place of INT_MAX
      var targetFloor := -1;
      var i := 0;
      while i < requests.Length
        invariant 0 <= i <= requests.Length
        invariant match Earliest(requests[..i], currTime)
          case None => earliestTime == None && targetFloor == -1
          case Some(k) => earliestTime == Some(requests[k].time) && targetFloor == RideTarget(requests[k])
      {
        assert requests[..i + 1][..i] == requests[..i];
        var req := requests[i];
        if !req.serviced && req.time <= currTime {
          if earliestTime.None? || req.time < earliestTime.value {
            earliestTime := Some(req.time);
            targetFloor := if !req.floorReqDone then req.floorSrc else req.floorDest;
          }
        }
        i := i + 1;
      }
      assert requests[..i] == requests[..];
      if targetFloor != -1 {
        if targetFloor > currFloor {
          currDir := Up;
        } else if targetFloor < currFloor {
          currDir := Down;
        } else {
          currDir := Stopped;
        }
      } else {
        currDir := Stopped;
      }
    }

    method HasRequests(currTime: int) returns (b: bool)
      ensures b == Outstanding(requests[..], currTime)
    {
      var i := 0;
      while i < requests.Length
        invariant 0 <= i <= requests.Length
        invariant forall j :: 0 <= j < i ==> !Pending(requests[j], currTime)
      {
        if !requests[i].serviced && requests[i].time <= currTime {
          return true;
        }
        i := i + 1;
      }
      return false;
    }

    method UpdateElevator(time: int)
      modifies this, requests
      ensures Snap() == Update(numFloors, old(Snap()), time)
    {
      HandleStop(time);
      MoveElevator();
      DetermineDirection(time);
    }

    method MoveElevator()
      modifies this`currFloor
      ensures currFloor == Moved(numFloors, old(currFloor), currDir)
    {
      if currDir == Up && currFloor < numFloors {
        currFloor := currFloor + 1;
      } else if currDir == Down && currFloor > 1 {
        currFloor := currFloor - 1;
      }
    }

    method HandleStop(currTime: int)
      modifies this`currDir, requests
      ensures Snap() == Stop(old(Snap()), currTime)
    {
      var handledPassenger := HandleUnloading(currTime, false);
      HandleLoading(currTime, handledPassenger);
      DetermineDirection(currTime);
    }

    method HasExistingPickup(floor: int, currTime: int) returns (b: bool)
      ensures b == ExistingPickup(requests[..], floor, currTime)
    {
      var i := 0;
      while i < requests.Length
        invariant 0 <= i <= requests.Length
        invariant forall j :: 0 <= j < i ==> !PickedUpEarlier(requests[j], floor, currTime)
      {
        var req := requests[i];
        if req.floorReqDone && !req.serviced && req.floorSrc == floor && req.time < currTime {
          return true;
        }
        i := i + 1;
      }
      return false;
    }

    /** handledIn/handledPassenger model the source's in-out flag. */
    method HandleUnloading(currTime: int, handledIn: bool) returns (handledPassenger: bool)
      modifies requests
      ensures requests[..] == Unload(old(requests[..]), currFloor, currTime)
      ensures handledPassenger == (handledIn || UnloadsAt(old(requests[..]), currFloor))
    {
      handledPassenger := handledIn;
      var i := 0;
      while i < requests.Length
        invariant 0 <= i <= requests.Length
        invariant forall j :: 0 <= j < i ==> requests[j] == UnloadOne(old(requests[j]), currFloor, currTime)
        invariant forall j :: i <= j < requests.Length ==> requests[j] == old(requests[j])
        invariant handledPassenger == (handledIn || exists j :: 0 <= j < i && Unloads(old(requests[j]), currFloor))
      {
        var req := requests[i];
        if req.floorReqDone && !req.serviced && req.floorDest == currFloor {
          requests[i] := req.SetServiced(true).SetArriveTime(currTime);
          handledPassenger := true;
        }
        i := i + 1;
      }
    }

    method HandleLoading(currTime: int, handledPassenger: bool)
      modifies requests
      ensures requests[..] == Load(old(requests[..]), currFloor, currTime, handledPassenger)
    {
      if handledPassenger {
        return;
      }
      var i := 0;
      while i < requests.Length
        invariant 0 <= i <= requests.Length
        invariant requests[..] == old(requests[..])
        invariant ExistingPickup(requests[..], currFloor, currTime)
          || forall j :: 0 <= j < i ==> !Boardable(requests[j], currFloor, currTime)
      {
        var req := requests[i];
        if !req.floorReqDone && !req.serviced && req.floorSrc == currFloor && req.time <= currTime {
          var earlier := HasExistingPickup(currFloor, currTime);
          if !earlier {
            requests[i] := req.SetFloorRequestDone(true);
            break;
          }
        }
        i := i + 1;
      }
    }
  }
}
