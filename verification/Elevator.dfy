/** elevator_proc.c in its own form: one object with the global variables as fields, updated in place
    by methods that keep the loops and the early returns of the C functions. Every method is proved
    to do to `Model()` exactly what the function of Machine does. */
module Elevators {
  import opened Passengers
  import opened Machine
  import opened Runs
  import opened Books
  import opened Routines

  class Elevator {
    var currentWeight: int
    var currentUnits: int
    var previousState: Mode
    var state: Mode
    var currentFloor: int
    var nextFloor: int
    var onboard: seq<Passenger>
    var started: bool
    var oddChildren: int
    var totalServed: int
    const floors: array<seq<Passenger>>
    const served: array<int>

    /** Stands for the allocator: the address of the next list node. */
    var nodes: nat

    /** What the C program does not record; see Machine.History. */
    ghost var log: History

    ghost function Model(): State
      reads this, floors, served
    {
      State(currentWeight, currentUnits, previousState, state, currentFloor, nextFloor, onboard,
            floors[..], served[..], totalServed, oddChildren, started, nodes, log)
    }

    /** elevator_init and the initial values of the globals. */
    constructor ()
      ensures Model() == Init()
      ensures state == Offline && previousState == Offline && !started && currentFloor == 0 && nextFloor == 0
      ensures currentWeight == 0 && currentUnits == 0 && oddChildren == 0 && totalServed == 0 && onboard == []
      ensures floors.Length == 10 && forall i | 0 <= i < 10 :: floors[i] == []
      ensures served.Length == 10 && forall i | 0 <= i < 10 :: served[i] == 0
      ensures fresh(floors) && fresh(served)
    {
      currentWeight, currentUnits, previousState, state := 0, 0, Offline, Offline;
      currentFloor, nextFloor, onboard, started := 0, 0, [], false;
      oddChildren, totalServed, nodes := 0, 0, 0;
      floors := new seq<Passenger>[10](i => []);
      served := new int[10](i => 0);
      log := History(0, 0, [], [], [], [], [], []);
      new;
      assert floors[..] == seq(FLOORS, i => []);
      assert served[..] == seq(FLOORS, i => 0);
    }

    method StartElevator() returns (r: int)
      modifies this
      ensures Model() == Start(old(Model()))
      ensures old(started) ==> Model() == old(Model())
      ensures !old(started) ==> Model() == old(Model()).(mode := Idle, floor := 1, started := true)
      ensures r == if old(started) then 1 else 0
    {
      if started {
        return 1;
      }
      state := Idle;
      currentFloor := 1;
      started := true;
      return 0;
    }

    method StopElevator() returns (r: int)
      modifies this
      ensures Model() == Stop(old(Model()))
      ensures !old(started) ==> Model() == old(Model())
      ensures old(started) ==> Model() == old(Model()).(previous := previousState, mode := Offline, started := false,
                                                        h := old(log).(epoch := old(log).epoch + 1))
      ensures old(started) && (old(state) == Up || old(state) == Down) ==> previousState == old(state)
      ensures old(started) && old(state) != Up && old(state) != Down ==> previousState == old(previousState)
      ensures r == if old(started) then 0 else 1
    {
      if started {
        if state == Up || state == Down {
          previousState := state;
        }
        state := Offline;
        started := false;
        log := log.(epoch := log.epoch + 1);
        return 0;
      } else {
        return 1;
      }
    }

    method IssueRequest(passengerType: int, startFloor: int, destinationFloor: int) returns (r: int)
      requires Shape(Model())
      modifies this, floors
      ensures Model() == Issue(old(Model()), passengerType, startFloor, destinationFloor)
      ensures r == if 1 <= passengerType <= 4 && 1 <= startFloor <= 10 && 1 <= destinationFloor <= 10 then 0 else 1
      ensures r == 0 ==> Enqueued(old(Model()), Model(), passengerType, startFloor, destinationFloor)
      ensures r == 1 ==> Model() == old(Model())
    {
      if passengerType > 4 || passengerType < 1 {
        return 1;
      } else if startFloor > 10 || startFloor < 1 {
        return 1;
      } else if destinationFloor > 10 || destinationFloor < 1 {
        return 1;
      }
      var added := AddPassenger(passengerType, startFloor, destinationFloor);
      return 0;
    }

    method AddPassenger(passengerType: int, startFloor: int, destinationFloor: int) returns (r: int)
      requires Shape(Model()) && IsFloor(startFloor) && IsFloor(destinationFloor)
      modifies this, floors
      ensures Model() == Issue(old(Model()), passengerType, startFloor, destinationFloor)
      ensures r == if 1 <= passengerType <= 4 then 0 else -1
      ensures r == 0 ==> Enqueued(old(Model()), Model(), passengerType, startFloor, destinationFloor)
      ensures r == -1 ==> Model() == old(Model())
    {
      var kind, weight, space := Adult, 2, 1;
      if passengerType == 1 {
      } else if passengerType == 2 {
        kind, weight, space := Child, 1, 1;
      } else if passengerType == 3 {
        kind, weight, space := RoomService, 4, 2;
      } else if passengerType == 4 {
        kind, weight, space := Bellhop, 8, 2;
      } else {
        return -1;
      }
      var heading := Equal;
      if startFloor - destinationFloor > 0 {
        heading := Down;
      } else if startFloor - destinationFloor < 0 {
        heading := Up;
      }
      var p := Passenger(nodes, kind, weight, space, startFloor, destinationFloor, heading);
      nodes := nodes + 1;
      floors[startFloor - 1] := floors[startFloor - 1] + [p];
      log := log.(arrivals := log.arrivals + [p]);
      IssueEnqueues(old(Model()), passengerType, startFloor, destinationFloor);
      return 0;
    }

    /** The two counters that go up whenever somebody is served. */
    method CountServed(floor: int)
      requires served.Length == FLOORS && IsFloor(floor)
      modifies this`totalServed, served
      ensures served[..] == old(served[..])[floor - 1 := old(served[..])[floor - 1] + 1]
      ensures totalServed == old(totalServed) + 1
    {
      served[floor - 1] := served[floor - 1] + 1;
      totalServed := totalServed + 1;
    }

    method AddLoad(p: Passenger)
      modifies this`currentWeight, this`currentUnits, this`oddChildren
      ensures currentWeight == old(currentWeight) + p.weight && currentUnits == old(currentUnits) + p.space
      ensures oddChildren == old(oddChildren) + (if p.kind == Child then 1 else 0)
    {
      if p.kind == Child {
        oddChildren := oddChildren + 1;
      }
      currentWeight := currentWeight + p.weight;
      currentUnits := currentUnits + p.space;
    }

    method RemoveLoad(p: Passenger)
      modifies this`currentWeight, this`currentUnits, this`oddChildren
      ensures currentWeight == old(currentWeight) - p.weight && currentUnits == old(currentUnits) - p.space
      ensures oddChildren == old(oddChildren) - (if p.kind == Child then 1 else 0)
    {
      currentWeight := currentWeight - p.weight;
      currentUnits := currentUnits - p.space;
      if p.kind == Child {
        oddChildren := oddChildren - 1;
      }
    }

    /** list_del and the counters of somebody who is already where they want to be. */
    method ServeHead(floor: int)
      requires SomeoneHere(Model()) && floor == currentFloor && floors[floor - 1][0].heading == Equal
      modifies this, floors, served
      ensures Model() == ServeHere(old(Model()))
    {
      ghost var before := Model();
      var p := floors[floor - 1][0];
      CountServed(floor);
      floors[floor - 1] := floors[floor - 1][1..];
      log := log.(departed := log.departed + [p], delivered := log.delivered + [p],
                  trips := log.trips + [Trip(before.Now(), before.Now())]);
    }

    /** list_move_tail onto the onboard list, and the load counters. */
    method TakeHead(floor: int)
      requires SomeoneHere(Model()) && floor == currentFloor && floors[floor - 1][0].heading != Equal
      modifies this, floors
      ensures Model() == Board(old(Model()))
    {
      ghost var before := Model();
      var p := floors[floor - 1][0];
      AddLoad(p);
      floors[floor - 1] := floors[floor - 1][1..];
      onboard := onboard + [p];
      log := log.(departed := log.departed + [p], boardings := log.boardings + [before.Now()]);
    }

    /** The cursor of list_for_each_safe is always the head: a node is either removed or ends the loop. */
    method LoadElevator(floor: int) returns (r: int)
      requires Shape(Model())
      requires floor == currentFloor ==> IsFloor(floor)
      modifies this, floors, served
      ensures Model() == if floor == old(currentFloor) then Load(old(Model())) else old(Model())
      ensures r == if floor == old(currentFloor) && old(floors[..])[floor - 1] != [] && floors[floor - 1] == []
                   then 0 else -1
      ensures floor == old(currentFloor) ==> Shape(Model()) && currentFloor == floor && LeavesMisfit(Model())
      ensures floor == old(currentFloor) && old(currentWeight) <= 30 && old(currentUnits) <= 10 ==>
                currentWeight <= 30 && currentUnits <= 10
    {
      if floor != currentFloor {
        return -1;
      }
      if floors[floor - 1] == [] {
        return -1;
      }
      while floors[floor - 1] != []
        invariant Shape(Model()) && currentFloor == floor
        invariant Load(Model()) == Load(old(Model()))
        invariant old(currentWeight) <= 30 && old(currentUnits) <= 10 ==> currentWeight <= 30 && currentUnits <= 10
        decreases |floors[floor - 1]|
      {
        var p := floors[floor - 1][0];
        if p.heading == Equal {
          ServeHead(floor);
        } else if currentWeight + p.weight <= MAX_WEIGHT && currentUnits + p.space <= MAX_UNITS {
          TakeHead(floor);
        } else if currentWeight + p.weight > MAX_WEIGHT || currentUnits + p.space > MAX_UNITS {
          return -1;
        } else {
          assert false;
        }
      }
      return 0;
    }

    /** list_del and the counters of the passenger under the cursor. */
    method LetOff(floor: int, i: nat)
      requires Shape(Model()) && i < |onboard| && onboard[i].dest == floor
      modifies this, served
      ensures Model() == Alight(old(Model()), i)
    {
      ghost var before := Model();
      var p := onboard[i];
      RemoveLoad(p);
      CountServed(floor);
      onboard := onboard[..i] + onboard[i + 1..];
      log := log.(delivered := log.delivered + [p],
                  boardings := log.boardings[..i] + log.boardings[i + 1..],
                  trips := log.trips + [Trip(log.boardings[i], before.Now())]);
    }

    method UnloadElevator(floor: int) returns (r: int)
      requires Shape(Model())
      modifies this, served
      ensures Model() == if floor == old(currentFloor) then Unload(old(Model())) else old(Model())
      ensures r == if floor == old(currentFloor) then 0 else -1
    {
      if currentFloor != floor {
        return -1;
      }
      var i := 0;
      while i < |onboard|
        invariant i <= |onboard| && Shape(Model()) && currentFloor == floor
        invariant UnloadFrom(Model(), i) == Unload(old(Model()))
        decreases |onboard| - i
      {
        if onboard[i].dest == floor {
          LetOff(floor, i);
        } else {
          i := i + 1;
        }
      }
      return 0;
    }

    /** ssleep appears as time passing on the ghost clock. */
    method MoveElevator(floor: int) returns (r: int)
      modifies this
      ensures Model() == MoveTo(old(Model()), floor)
      ensures r == if floor != old(currentFloor) then 1 else -1
      ensures floor == old(currentFloor) ==> Model() == old(Model())
      ensures floor != old(currentFloor) ==>
                Model() == old(Model()).(floor := floor, nextFloor := floor, h := old(log).(clock := log.clock))
      ensures log.clock - old(log).clock
           == 2 * (if floor < old(currentFloor) then old(currentFloor) - floor else floor - old(currentFloor))
    {
      if floor != currentFloor {
        var x := currentFloor - floor;
        if x < 0 {
          x := x * -1;
        }
        nextFloor := floor;
        log := log.(clock := log.clock + 2 * x);
        currentFloor := floor;
        return 1;
      } else {
        return -1;
      }
    }

    method MinOnboard() returns (minFloor: int)
      ensures minFloor == Machine.MinOnboard(Model())
      ensures previousState != Up && previousState != Down ==> minFloor == -1
      ensures previousState == Up ==>
                || (minFloor == 0 && forall k | 0 <= k < |onboard| :: onboard[k].dest - currentFloor >= 10)
                || (&& (exists k | 0 <= k < |onboard| :: onboard[k].dest == minFloor)
                    && forall k | 0 <= k < |onboard| :: minFloor <= onboard[k].dest)
      ensures previousState == Down ==>
                || (minFloor == 0 && forall k | 0 <= k < |onboard| :: currentFloor - onboard[k].dest >= 10)
                || (&& (exists k | 0 <= k < |onboard| :: onboard[k].dest == minFloor)
                    && forall k | 0 <= k < |onboard| :: minFloor >= onboard[k].dest)
    {
      ScanFindsNearest(onboard, previousState, currentFloor, 10, 0);
      var minDiff := 10;
      minFloor := 0;
      if previousState == Up {
        for i := 0 to |onboard|
          invariant Scan(onboard[i..], Up, currentFloor, minDiff, minFloor)
                 == Scan(onboard, Up, currentFloor, 10, 0)
        {
          assert onboard[i..][1..] == onboard[i + 1..];
          var tempNum := onboard[i].dest - currentFloor;
          if tempNum < minDiff {
            minDiff := tempNum;
            minFloor := onboard[i].dest;
          }
        }
      } else if previousState == Down {
        for i := 0 to |onboard|
          invariant Scan(onboard[i..], Down, currentFloor, minDiff, minFloor)
                 == Scan(onboard, Down, currentFloor, 10, 0)
        {
          assert onboard[i..][1..] == onboard[i + 1..];
          var tempNum := currentFloor - onboard[i].dest;
          if tempNum < minDiff {
            minDiff := tempNum;
            minFloor := onboard[i].dest;
          }
        }
      } else {
        return -1;
      }
    }

    /** The OFFLINE branch: the loop ends because every turn lets somebody off. */
    method DrainOnboard()
      requires DrainReady(Model())
      modifies this, served
      ensures Model() == Drain(old(Model()))
    {
      while onboard != []
        invariant DrainReady(Model())
        invariant Drain(Model()) == Drain(old(Model()))
        decreases |onboard|
      {
        DrainStepShrinks(Model());
        var floor := MinOnboard();
        var moved := MoveElevator(floor);
        var unloaded := UnloadElevator(currentFloor);
      }
    }

    /** The IDLE branch. */
    method DispatchToFloors()
      requires Shape(Model())
      modifies this
      ensures Model() == Dispatch(old(Model()), 0)
    {
      for i := 0 to 10
        invariant Shape(Model())
        invariant Dispatch(Model(), i) == Dispatch(old(Model()), 0)
      {
        if floors[i] != [] {
          var p := floors[i][0];
          var moved := MoveElevator(p.start);
          state := Loading;
        }
      }
    }

    method UnloadAndDwell()
      requires Shape(Model()) && IsFloor(currentFloor)
      modifies this, served
      ensures Model() == Sleep(Unload(old(Model()).(mode := Loading)), 1)
      ensures Shape(Model()) && currentFloor == old(currentFloor)
    {
      state := Loading;
      UnloadFromFrame(Model(), 0);
      var unloaded := UnloadElevator(currentFloor);
      log := log.(clock := log.clock + 1);
    }

    /** The locked part of the last branch: unload, dwell, load. */
    method StopAtFloor()
      requires Shape(Model()) && IsFloor(currentFloor)
      modifies this, floors, served
      ensures Model() == Attend(old(Model())).(mode := Up)
    {
      UnloadAndDwell();
      var loaded := LoadElevator(currentFloor);
      state := Up;
    }

    method MoveOn()
      modifies this
      ensures Model() == Advance(old(Model()))
    {
      ghost var visited := currentFloor;
      if currentFloor == 10 {
        var moved := MoveElevator(1);
      } else {
        var moved := MoveElevator(currentFloor + 1);
      }
      log := log.(visits := log.visits + [visited]);
    }

    /** The last branch: serve the floor, and on to the next. */
    method ServeFloor()
      requires Shape(Model()) && IsFloor(currentFloor)
      modifies this, floors, served
      ensures Model() == Service(old(Model()))
    {
      AttendFrame(Model());
      StopAtFloor();
      if state == Up {
        MoveOn();
      }
      if state == Down {
        assert false;
      }
      if onboard == [] {
        state := Idle;
      }
    }

    /** One pass of the scheduler's loop. */
    method SchedulerPass()
      requires Ready(Model())
      modifies this, floors, served
      ensures Model() == Tick(old(Model()))
      ensures Ready(Model())
    {
      StepKeepsReady(Model(), Pass);
      if state == Offline {
        DrainOnboard();
      } else if state == Idle {
        DispatchToFloors();
      } else {
        ServeFloor();
      }
    }

    /** The weight line of elevator_proc_read: halves are shown by a digit that depends only on how
        many children ride, and the two together are exact. */
    method ReadWeight() returns (whole: int, decimal: int)
      requires Shape(Model()) && Counted(Model())
      ensures 10 * whole + decimal == 5 * currentWeight && 0 <= decimal < 10
    {
      CargoBounds(onboard);
      if oddChildren % 2 == 0 && oddChildren >= 0 {
        decimal := 0;
      } else {
        decimal := 5;
      }
      whole := currentWeight / 2;
    }
  }
}
