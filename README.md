# Elevator scheduling engine, modelled in Dafny

This project models the scheduling engine of a single-car elevator simulation
(`ECElevatorSim`). The engine is driven one tick at a time. In each tick it either
serves every passenger at the current floor at once, or it unloads riders, loads
at most one passenger, decides a direction, moves one floor and decides again.

Files:

- `request.dfy` (module `Requests`): the passenger request `ECElevatorSimRequest`
  as a value. It has a time, a source, a destination, the boarded flag
  `floorReqDone`, the delivered flag `serviced` and the arrival time `timeArrive`.
  Its setters return the record with exactly one field replaced.
- `strategy.dfy` (module `Strategies`): the direction `Dir = Stopped | Up | Down`
  and the two stateless strategies. `stopAtFloor` and `containsMoreRequests` are
  read-only scans, written as methods with loops. Each is proved equal to an
  existential predicate over the request list.
- `scheduling.dfy` (module `Scheduling`): one tick as pure functions of a
  `Snapshot` (floor, direction, request list), one function per helper of the
  engine. The engine's properties are proved here as lemmas.
- `elevator.dfy` (module `Elevator`): the class `ElevatorSim`. It has the fields
  `numFloors`, `currFloor` and `currDir`, and the caller's request list as a
  shared `array<Request>` (the C++ class keeps a reference to the caller's
  vector). Each method mirrors one C++ helper and updates the array in place.
  Each is proved to compute the matching `Scheduling` function.
- `scenarios.dfy` (module `Scenarios`): two concrete runs, proved from the constructor's
  state at tick 0. Small lemmas fix one or a few ticks each, and `RideRun` and
  `CrossingRun` chain them into the whole run.
- `options.dfy`: an `Option` type. It replaces the `INT_MAX` "none yet" sentinel.

Four behaviours of the code worth knowing, all modelled as written:

- The pickup guard at the start of `handlePassengers` (ECElevatorSim.cpp:119-129,
  commented at line 125 as "Don't allow new pickup") does not just suppress a
  pickup. It skips the serve-at-rest step, and the tick falls through to
  `updateElevator`. That step still unloads, and `hasExistingPickup` then stops
  any loading.
- `handleUnloading` does not test visibility (`time <= t`).
- The boarding test in `countPassengersAtFloor` and `handleAllPassengersAtFloor`
  does not look at `serviced`.
- Boarding never checks the passenger's direction, although the header comment
  at ECElevatorSim.h:28-29 mentions it.

`Requests.Consistent` is the lifecycle invariant: only a boarded request is
delivered, only a visible one is boarded, and a delivered request's arrival time
lies between its request time and the current tick. A fresh request satisfies it,
and every tick preserves it (`Scheduling.TickKeepsConsistent`). `Scheduling.Run`
strings ticks together the way the display loop drives the engine, one
`Simulate` call per tick with the current tick as argument; `Scheduling.RunKeepsHealthy`
carries the invariants through a whole run by induction. Under it,
`countPassengersAtFloor` agrees with `stopAtFloor` (`Scheduling.CountMatchesStop`).

Nothing in the engine branches on the maintenance markers. They take part in the
floor comparisons like any other request. They name floors -1 and 0, so a car
inside the shaft never boards them (`Scheduling.MaintenanceNeverBoards`). They still
count as pending work, with two consequences. While one waits, `DownStrategy`'s
`containsMoreRequests` sees work below every floor, so a car heading Down keeps
heading Down and rests at floor 1 (`Scheduling.MaintenancePinsDown`). When a
maintenance start is the earliest pending request, its target -1 is read as "no
target", and the car is set Stopped while other passengers wait
(`Scheduling.MaintenanceStartStopsNewDirection`).

## Model

| member | source | states |
|---|---|---|
| `Requests.NewRequest` | ECElevatorSim.h:41 | a new request keeps the given time, source and destination; it is not boarded, not serviced, and its arrival time is -1 |
| `Requests.Request.Copy` | ECElevatorSim.h:42 | the copy equals the original in all six fields |
| `Requests.Request.SetFloorRequestDone` | ECElevatorSim.h:50 | sets the boarded flag and leaves time, source, destination, serviced and arrival time unchanged |
| `Requests.Request.SetServiced` | ECElevatorSim.h:54 | sets the serviced flag and leaves every other field unchanged |
| `Requests.Request.SetArriveTime` | ECElevatorSim.h:74 | sets the arrival time and leaves every other field unchanged |
| `Requests.Request.IsMaintenanceStart` | ECElevatorSim.h:77-78 | a maintenance-start request (-1, -1) is never also a maintenance-end request (0, 0) |
| `Requests.RequestedFloorLifecycle` | ECElevatorSim.h:56-70 | the requested floor is the source while waiting, the destination once boarded, and -1 once serviced |
| `Requests.GoingUpIffRideRises` | ECElevatorSim.h:46 | a waiting request goes up iff boarding does not lower its requested floor, i.e. dest >= src |
| `Requests.NewRequestConsistent` | ECElevatorSim.h:41 | a freshly made request satisfies the lifecycle invariant at every tick |
| `Strategies.GetDirection` | ECElevatorSim.cpp:48-51 | each strategy reports a moving direction (Up for UpStrategy, Down for DownStrategy), and the engine selects that same strategy back for that direction |
| `Strategies.StopAtFloor` | ECElevatorSim.cpp:15-31 | true iff some visible unserviced request either rides to the floor or waits there unboarded; the answer does not depend on the strategy (the Down copy at lines 54-70 is identical) |
| `Strategies.ContainsMoreRequests` | ECElevatorSim.cpp:34-46 | true iff some visible unserviced request has a requested floor strictly above (Up) or strictly below (Down, lines 73-85) the current floor |
| `Strategies.NothingAheadWhenIdle` | ECElevatorSim.cpp:73-85 | with nothing pending, neither strategy sees work ahead nor a reason to stop |
| `Scheduling.PassengersAt` | ECElevatorSim.cpp:141-153 | the count is at most the list length, and positive iff some request is counted at this floor |
| `Scheduling.CountMatchesStop` | ECElevatorSim.cpp:141-153 | when every serviced request is boarded, the count is positive iff stopAtFloor holds at that floor |
| `Scheduling.ServeAll` | ECElevatorSim.cpp:156-172 | exactly the visible boarded riders to the floor become serviced, with arrival time t; exactly the visible unboarded requests at the floor become boarded; trips never change |
| `Scheduling.Unload` | ECElevatorSim.cpp:280-288 | exactly the boarded, unserviced riders to the floor become serviced, with arrival time t; boarding flags and trips are unchanged |
| `Scheduling.FirstBoardable` | ECElevatorSim.cpp:295-297 | finds the first request in list order that is unboarded, unserviced, visible and waiting at the floor; none iff there is no such request |
| `Scheduling.Load` | ECElevatorSim.cpp:292-304 | nothing boards after an unload or while an earlier pickup here still rides; otherwise only the first boardable request boards, and one does board whenever one exists |
| `Scheduling.Earliest` | ECElevatorSim.cpp:196-210 | picks a pending request with the minimum time, the first in list order among ties; none iff nothing is pending |
| `Scheduling.NewDirectionTowardEarliest` | ECElevatorSim.cpp:196-227 | the new direction heads from the current floor toward the earliest pending request's source (if waiting) or destination (if boarded); a target of -1 means Stopped |
| `Scheduling.KeepsDirectionWhileWorkAhead` | ECElevatorSim.cpp:175-192 | a moving car keeps its direction while its strategy still sees work ahead |
| `Scheduling.NextDirectionHasReason` | ECElevatorSim.cpp:175-227 | the car is sent Up (Down) only if some pending request asks for a floor above (below) it |
| `Scheduling.IdleStops` | ECElevatorSim.cpp:185-227 | with no pending request, determineDirection yields Stopped |
| `Scheduling.Moved` | ECElevatorSim.cpp:248-255 | the floor changes by at most one, Up only while below numFloors, Down only while above 1; Stopped never moves |
| `Scheduling.StopProgress` | ECElevatorSim.cpp:259-304 | handleStop changes each request only as a tick may, and boards at most one request |
| `Scheduling.TickProgress` | ECElevatorSim.cpp:106-113 | in a tick, trips never change and the boarded and serviced flags only become true; boarding needs time <= t and the source at the car's floor; servicing needs a boarded request riding to that floor and sets arrival time t |
| `Scheduling.UpdateBoardsAtMostOne` | ECElevatorSim.cpp:240-244 | a tick that does not serve at rest boards at most one passenger |
| `Scheduling.TickKeepsConsistent` | ECElevatorSim.cpp:106-113 | with non-decreasing ticks, the lifecycle invariant (serviced implies boarded and time <= arrival <= t; boarded implies visible) survives every tick |
| `Scheduling.TickFloorBounds` | ECElevatorSim.cpp:240-255 | a tick moves the car at most one floor, keeps a car in 1..numFloors there, and does not move it when passengers are served at rest |
| `Scheduling.TickIdleStops` | ECElevatorSim.cpp:132-137 | if nothing is pending at the end of a tick, the direction is Stopped |
| `Scheduling.TickKeepsHealthy` | ECElevatorSim.cpp:106-113 | a tick at time t keeps a car in 1..numFloors and requests consistent from tick t - 1 to tick t; trips are kept and flags are never reset |
| `Scheduling.RunKeepsHealthy` | ElevatorObserver.cpp:33-39 | over any run of ticks 0, 1, 2, ... driven one Simulate call per tick, started inside the shaft with consistent requests, the car never leaves 1..numFloors, the requests stay consistent, trips never change and no boarded or serviced flag is reset |
| `Scheduling.MaintenanceNeverBoards` | ECElevatorSim.h:77-78 | an unboarded maintenance marker stays unboarded and unserviced while the car is on floor 1 or above |
| `Scheduling.MaintenancePinsDown` | ECElevatorSim.cpp:73-85 | with an unboarded maintenance marker pending and the car at floor 1 or above, determineDirection keeps a Down car Down |
| `Scheduling.MaintenanceStartStopsNewDirection` | ECElevatorSim.cpp:196-226 | when the earliest pending request is an unboarded maintenance start, its target -1 counts as no target and setNewDirection picks Stopped |
| `Scenarios.RideBoardsAtTickZero` | ECElevatorSim.cpp:117-137 | five floors, request (0, 1, 3), car at floor 1 Stopped: at tick 0 the passenger boards and the car turns Up |
| `Scenarios.RideClimbs` | ECElevatorSim.cpp:240-255 | the car then reaches floor 2 at tick 1 and floor 3 at tick 2, where it turns Stopped |
| `Scenarios.RideArrivesAtTickThree` | ECElevatorSim.cpp:156-172 | at tick 3 the passenger is serviced with arrival time 3 |
| `Scenarios.RideRun` | ElevatorObserver.cpp:33-39 | the run of ticks 0 to 3 from the constructor's state ends at floor 3, Stopped, the passenger delivered at tick 3 |
| `Scenarios.CrossingBoardsAtTickZero` | ECElevatorSim.cpp:117-137 | requests (0, 1, 5) and (0, 5, 1), car at floor 1 Stopped: at tick 0 the first passenger boards and the car turns Up |
| `Scenarios.CrossingKeepsClimbing` | ECElevatorSim.cpp:34-46 | at ticks 1 to 3 the car passes floors 1 to 3 still going Up, since the rider asks for floor 5 |
| `Scenarios.CrossingReachesTop` | ECElevatorSim.cpp:196-227 | at tick 4 the car reaches floor 5 and stops: the earliest request (the rider, first among equal times) targets floor 5 |
| `Scenarios.CrossingTurnsAtTop` | ECElevatorSim.cpp:156-172 | at tick 5 both passengers are served at once, and the car turns Down for the remaining one |
| `Scenarios.CrossingRun` | ElevatorObserver.cpp:33-39 | the run of ticks 0 to 5 from the constructor's state ends at floor 5, heading Down, the rider delivered at tick 5 and the second passenger on board |
| `Elevator.ElevatorSim.constructor` | ECElevatorSim.cpp:94-98 | the car starts at floor 1, Stopped, holding the caller's own request list |
| `Elevator.ElevatorSim.GetNumFloors` | ECElevatorSim.h:150 | returns the floor count given at construction (a constant field) |
| `Elevator.ElevatorSim.GetCurrFloor` | ECElevatorSim.h:153 | returns the current floor |
| `Elevator.ElevatorSim.SetCurrFloor` | ECElevatorSim.h:156 | sets the current floor and changes nothing else |
| `Elevator.ElevatorSim.GetCurrDir` | ECElevatorSim.h:159 | returns the current direction |
| `Elevator.ElevatorSim.SetCurrDir` | ECElevatorSim.h:162 | sets the current direction and changes nothing else |
| `Elevator.ElevatorSim.GetRequests` | ECElevatorSim.h:165 | returns the shared request list itself, not a copy |
| `Elevator.ElevatorSim.Simulate` | ECElevatorSim.cpp:107-113 | performs one Tick; keeps the car within 1..numFloors; every request progresses as TickProgress allows; the car ends Stopped when nothing is pending |
| `Elevator.ElevatorSim.HandlePassengers` | ECElevatorSim.cpp:117-138 | returns true iff no pickup is suppressed and someone is counted at the floor; then everyone there is served and the direction re-decided, otherwise nothing changes |
| `Elevator.ElevatorSim.CountPassengersAtFloor` | ECElevatorSim.cpp:141-153 | returns PassengersAt of the list at the current floor |
| `Elevator.ElevatorSim.HandleAllPassengersAtFloor` | ECElevatorSim.cpp:156-172 | the list becomes ServeAll of the old list; floor and direction are untouched |
| `Elevator.ElevatorSim.DetermineDirection` | ECElevatorSim.cpp:175-181 | only the direction changes: it is kept if it continues, and set by setNewDirection otherwise |
| `Elevator.ElevatorSim.ShouldContinueCurrentDirection` | ECElevatorSim.cpp:185-192 | true iff the car is moving and its strategy's containsMoreRequests holds |
| `Elevator.ElevatorSim.SetNewDirection` | ECElevatorSim.cpp:196-227 | only the direction changes, to the direction toward the earliest pending request's target |
| `Elevator.ElevatorSim.HasRequests` | ECElevatorSim.cpp:230-237 | true iff some visible request is unserviced |
| `Elevator.ElevatorSim.UpdateElevator` | ECElevatorSim.cpp:240-244 | handleStop, one move, then the direction is re-decided at the new floor |
| `Elevator.ElevatorSim.MoveElevator` | ECElevatorSim.cpp:248-255 | only the floor changes, as Moved prescribes |
| `Elevator.ElevatorSim.HandleStop` | ECElevatorSim.cpp:259-264 | unload, load at most one, re-decide direction; the floor is untouched |
| `Elevator.ElevatorSim.HasExistingPickup` | ECElevatorSim.cpp:268-276 | true iff a passenger boarded at the floor with an earlier request time is still riding |
| `Elevator.ElevatorSim.HandleUnloading` | ECElevatorSim.cpp:280-288 | the list becomes Unload of the old list; the flag is set iff some rider was unloaded (or it was set already) |
| `Elevator.ElevatorSim.HandleLoading` | ECElevatorSim.cpp:292-304 | the list becomes Load of the old list: at most the first boardable request boards |

## Left out

- Rendering, frame pacing, animation offsets and pause handling (`ElevatorObserver`) are not part of this model. They only read the engine's state between ticks.
- Scenario file parsing, command-line handling and window creation (`main.cpp`) are I/O around the engine and are left out.
- Heap allocation of the two strategy objects and the destructor have no counterpart: the strategies are an enum, selected by a match.
- Integers are unbounded. Nothing is lost by this: the engine's only arithmetic is the guarded `currFloor++`/`currFloor--` and `count++`, and request times are only compared.
- Scheduling.Earliest: `INT_MAX` is modelled as "no request seen yet". The source also skips a visible request whose time is exactly `INT_MAX`; the model does not.
- Elevator.ElevatorSim.HandlePassengers: the inner loop of the source's first scan is modelled by a call to `HasExistingPickup`, which performs the same test in the same way.
- Maintenance windows: the engine has no suspension logic, so none is modelled. Maintenance markers are ordinary requests to the engine.
- Determinism of a run is not stated as a lemma. It holds by construction, since every step is a function of the previous state and the tick.
